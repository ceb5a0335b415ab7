/** The gate a request looks at: when it ends where the request wants it, whatever other requests commit between the
    request's reads and its own commit. */
module GateRaces {
  import opened Prelude
  import opened Text
  import opened Status
  import opened Model
  import opened Transactions
  import opened Planning
  import opened Protocol
  import opened OptimisticLock
  import opened Agreement
  import opened Reachability
  import opened Dispatch
  import opened Races

  // ---- Two-request runs ----

  ghost function TwoSteps(a: DB, e: Event, f: Event): seq<DB>
    requires InOrder([a], e) && InOrder([a, After([a], e)], f)
  {
    [a, After([a], e), After([a, After([a], e)], f)]
  }

  lemma TwoStepsIsRun(a: DB, e: Event, f: Event)
    requires InOrder([a], e) && InOrder([a, After([a], e)], f)
    ensures IsRun(TwoSteps(a, e, f), [e, f])
  {
    hide After;
    var h := TwoSteps(a, e, f);
    assert Upto(h, 0) == [a] && Upto(h, 1) == [a, After([a], e)];
  }

  /** Both versions were shown in the first state. */
  lemma TwoStepsHonest(a: DB, e: Event, f: Event)
    requires InOrder([a], e) && InOrder([a, After([a], e)], f)
    requires HasExpected(e.call) ==> VersionIn(a, e.call) == Some(e.call.expected)
    requires HasExpected(f.call) ==> VersionIn(a, f.call) == Some(f.call.expected)
    ensures IsRun(TwoSteps(a, e, f), [e, f]) && Honest(TwoSteps(a, e, f), [e, f])
  {
    hide After, VersionIn;
    var h := TwoSteps(a, e, f);
    TwoStepsIsRun(a, e, f);
    forall i | 0 <= i < 2
      ensures Shown(Upto(h, i), [e, f][i])
    {
      assert Upto(h, i)[0] == a;
    }
  }

  /** A manual gate transition planned on the state it read lands on any live row still at the version it sends. */
  lemma LandsOn(h: seq<DB>, e: Event, id: Id, expected: nat, target: Status)
    requires InOrder(h, e) && e.call == GateTransition(id, expected, target) && !e.fault
    requires Live(h[e.own].gates, id) && CanTransition(GateUnit, h[e.own].gates[id].status, target)
    requires Live(Now(h).gates, id) && Now(h).gates[id].version == expected
    ensures After(h, e).gates == Now(h).gates[id := h[e.own].gates[id].(status := target, version := expected + 1,
        code := Now(h).gates[id].code, deleted := false)]
    ensures After(h, e).audits == Now(h).audits + [RawEntry(e.who, GateUnit, id, h[e.own].gates[id].status, target)]
    ensures After(h, e).directives == Now(h).directives && After(h, e).receipts == Now(h).receipts
        && After(h, e).approvals == Now(h).approvals
  {
  }

  /** A transaction that writes no gate has the same effect wherever the rows other than gates are the same. */
  lemma GateUntouched(a: DB, b: DB, tx: Tx)
    requires tx.gate.Skip? && Commit(a, tx).Ok?
    requires a.directives == b.directives && a.receipts == b.receipts && a.approvals == b.approvals
    ensures Commit(b, tx).Ok? && Commit(b, tx).value.gates == b.gates
    ensures Commit(b, tx).value.directives == Commit(a, tx).value.directives
    ensures Commit(b, tx).value.receipts == Commit(a, tx).value.receipts
  {
    hide Apply, LinkClash, StageTaken;
  }

  /** A gate that a request only looks at can be moved anywhere its graph allows between the reads and the commit: two
      honest clients, and the request commits with the effect on every other row it has when served alone. */
  lemma MovedUnder(db: DB, g: Keyed<Gate>, away: Status, call: Call, who: Caller) returns (h: seq<DB>, es: seq<Event>)
    requires Live(db.gates, g.id) && db.gates[g.id] == g.row && CanTransition(GateUnit, g.row.status, away)
    requires Serially(db, call, who).Ok? && Plan(call, Views(db, db, db, db), who).value.gate.Skip?
    requires HasExpected(call) ==> VersionIn(db, call) == Some(call.expected)
    ensures IsRun(h, es) && Honest(h, es) && |h| == 3 && |es| == 2 && h[0] == db
    ensures es[1] == Event(call, who, 0, 0, 0, 0, false) && CommittedAt(h, es, 1)
    ensures g.id in h[2].gates && h[2].gates[g.id].status == away
    ensures h[2].directives == Serially(db, call, who).value.directives
    ensures h[2].receipts == Serially(db, call, who).value.receipts
  {
    hide After, Plan, Honest, IsRun, Commit, VersionIn;
    var e := Event(GateTransition(g.id, g.row.version, away), who, 0, 0, 0, 0, false);
    var f := Event(call, who, 0, 0, 0, 0, false);
    LandsOn([db], e, g.id, g.row.version, away);
    var b := After([db], e);
    var tx := Plan(call, Views(db, db, db, db), who).value;
    GateUntouched(db, b, tx);
    AfterIs([db, b], f, tx);
    VersionOfGate(db, g.id, e.call);
    h, es := TwoSteps(db, e, f), [e, f];
    TwoStepsHonest(db, e, f);
    assert Upto(h, 1) == [db, b];
  }

  lemma VersionOfGate(db: DB, id: Id, call: Call)
    requires id in db.gates && call.GateTransition? && call.id == id
    ensures VersionIn(db, call) == Some(db.gates[id].version)
  {
  }

  /** The gate row a committed request overwrote. */
  lemma GateWritten(h: seq<DB>, e: Event, tx: Tx, g: Id, version: nat)
    requires InOrder(h, e) && Commits(h, e) && Planned(h, e) == Ok(tx) && Overwrites(tx.gate, g, version)
    ensures g in After(h, e).gates && After(h, e).gates[g].status == tx.gate.change.row.status
  {
    hide Planned, Commit;
    CommitEffect(Now(h), tx);
  }

  lemma StartGateWords(db: DB, except: set<Id>)
    requires Starts(db, except)
    ensures GateWords(db)
  {
  }

  // ---- Starting and aborting a directive ----

  /** The rows of the directive and of its gate that a transition read. */
  ghost predicate ReadsMove(h: seq<DB>, e: Event, id: Id, d: Row<Directive>, g: Keyed<Gate>) {
    InOrder(h, e) && Find(h[e.own].directives, id) == Some(d) && LinkedGate(h[e.far], d.body.relatedCode) == Some(g)
  }

  /** Request `i` of an honest run moved directive `id` to the target, having read these rows, and committed. */
  ghost predicate MoveCommitted(h: seq<DB>, es: seq<Event>, except: set<Id>, i: nat, id: Id, d: Row<Directive>,
      g: Keyed<Gate>, target: Status, who: Caller) {
    && IsRun(h, es) && Honest(h, es) && Starts(h[0], except) && i < |es|
    && es[i].call == DirectiveTransition(id, d.version, target) && es[i].who == who
    && ReadsMove(Upto(h, i), es[i], id, d, g)
    && CommittedAt(h, es, i)
  }

  /** Where the gate of a directive that was started, or aborted while executing, should be. */
  predicate GateRight(t: Table<Gate>, g: Id, d: Row<Directive>, target: Status) {
    g in t && if target == Executing then t[g].status != Locked
        && (t[g].status == Moving || t[g].status == d.body.gateState)
              else t[g].status == Locked
  }

  /** Whatever other requests commit between a transition's reads of these rows and its commit, the gate ends right. */
  ghost predicate MoveIsSafe(id: Id, d: Row<Directive>, g: Keyed<Gate>, target: Status, who: Caller) {
    forall h: seq<DB>, es: seq<Event>, except: set<Id>, i: nat ::
      MoveCommitted(h, es, except, i, id, d, g, target, who) ==> GateRight(h[i + 1].gates, g.id, d, target)
  }

  /** The gate read is one the transition writes: neither moving nor at the target when starting, not locked when
      aborting. */
  predicate MoveWrites(d: Row<Directive>, g: Row<Gate>, target: Status) {
    if target == Executing then g.status != Moving && g.status != d.body.gateState else g.status != Locked
  }

  lemma MoveWritesIff(id: Id, d: Row<Directive>, g: Keyed<Gate>, expected: nat, target: Status, who: Caller)
    requires PlanDirectiveTransition(id, Some(d), Some(g), expected, target, who).Ok? && ReachesGate(d.status, target)
    ensures var w := PlanDirectiveTransition(id, Some(d), Some(g), expected, target, who).value.gate;
            && (w.Write? <==> MoveWrites(d, g.row, target))
            && (w.Write? ==>
                  Overwrites(w, g.id, g.row.version)
                      && w.change.row.status == (if target == Executing then Moving else Locked))
            && (target == Executing ==> g.row.status != Locked)
  {
    hide EqualFold, RawEntry, CanTransition, DirectiveRoleAllowed, ApprovalFor;
  }

  lemma MovePlanned(h: seq<DB>, e: Event, id: Id, d: Row<Directive>, g: Keyed<Gate>, target: Status)
    requires ReadsMove(h, e, id, d, g) && e.call == DirectiveTransition(id, d.version, target) && Planned(h, e).Ok?
    requires ReachesGate(d.status, target)
    ensures var w := Planned(h, e).value.gate;
            && (w.Write? <==> MoveWrites(d, g.row, target))
            && (w.Write? ==>
                  Overwrites(w, g.id, g.row.version)
                      && w.change.row.status == (if target == Executing then Moving else Locked))
            && (target == Executing ==> g.row.status != Locked)
  {
    hide FindByCode, PlanDirectiveTransition, MoveWrites;
    MoveWritesIff(id, d, g, d.version, target, e.who);
  }

  /** This transition, served alone in this state, reads these rows and commits. */
  ghost predicate CanMove(db: DB, id: Id, d: Row<Directive>, g: Keyed<Gate>, target: Status, who: Caller) {
    && Find(db.directives, id) == Some(d) && LinkedGate(db, d.body.relatedCode) == Some(g)
    && Serially(db, DirectiveTransition(id, d.version, target), who).Ok?
  }

  /** A status the gate can leave this one for. */
  function Away(from: Status): Status {
    match from
    case Locked => Closed
    case Moving => Locked
    case _ => Moving
  }

  lemma AwayIsAllowed(from: Status)
    requires GateWord(from)
    ensures CanTransition(GateUnit, from, Away(from)) && CanTransition(GateUnit, from, Locked) != (from == Locked)
  {
  }

  /** The gate can be taken out of its place between the reads of a transition that writes no gate and its commit:
      locked under a start, closed again under an abort. */
  lemma MovedUnderTransition(db: DB, id: Id, d: Row<Directive>, g: Keyed<Gate>, target: Status, who: Caller)
      returns (h: seq<DB>, es: seq<Event>)
    requires GateWords(db) && CanMove(db, id, d, g, target, who) && ReachesGate(d.status, target)
    requires !MoveWrites(d, g.row, target)
    ensures IsRun(h, es) && Honest(h, es) && |h| == 3 && |es| == 2 && h[0] == db
    ensures es[1] == Event(DirectiveTransition(id, d.version, target), who, 0, 0, 0, 0, false)
    ensures ReadsMove(Upto(h, 1), es[1], id, d, g) && CommittedAt(h, es, 1)
    ensures id in h[2].directives && h[2].directives[id].status == target
    ensures g.id in h[2].gates && h[2].gates[g.id].status == (if target == Executing then Locked else Closed)
  {
    hide After, FindByCode, Plan, Honest, IsRun, Commit, Targets;
    var call := DirectiveTransition(id, d.version, target);
    var f := Event(call, who, 0, 0, 0, 0, false);
    MovePlanned([db], f, id, d, g, target);
    AwayIsAllowed(g.row.status);
    h, es := MovedUnder(db, g, if target == Executing then Locked else Closed, call, who);
    PlanMoves(call, Views(db, db, db, db), who);
    CommitEffect(db, Plan(call, Views(db, db, db, db), who).value);
    assert Upto(h, 1)[0] == db;
  }

  /** When starting a directive, or aborting it while executing, is safe: of any such request that can be served at all,
      from any state, the gate ends right in every interleaving if and only if the gate it reads is one it writes. */
  lemma MoveIsSafeIff(db: DB, except: set<Id>, id: Id, d: Row<Directive>, g: Keyed<Gate>, target: Status, who: Caller)
    requires Starts(db, except) && CanMove(db, id, d, g, target, who) && ReachesGate(d.status, target)
    ensures MoveIsSafe(id, d, g, target, who) <==> MoveWrites(d, g.row, target)
  {
    hide After, Honest, Commits, Consistent, Indexed, ColumnsCopied, CanMove, Planned;
    ReachingTargets(db, id, d, g, target, who);
    if MoveWrites(d, g.row, target) {
      forall h: seq<DB>, es: seq<Event>, x: set<Id>, i: nat | MoveCommitted(h, es, x, i, id, d, g, target, who)
        ensures GateRight(h[i + 1].gates, g.id, d, target)
      {
        StepAt(h, es, x, i);
        var past := Upto(h, i);
        MovePlanned(past, es[i], id, d, g, target);
        GateWritten(past, es[i], Planned(past, es[i]).value, g.id, g.row.version);
      }
    } else {
      assert GateWords(db) by { StartGateWords(db, except); }
      var h, es := MovedUnderTransition(db, id, d, g, target, who);
      assert MoveCommitted(h, es, except, 1, id, d, g, target, who);
      assert !GateRight(h[2].gates, g.id, d, target);
    }
  }

  lemma ReachingTargets(db: DB, id: Id, d: Row<Directive>, g: Keyed<Gate>, target: Status, who: Caller)
    requires CanMove(db, id, d, g, target, who) && ReachesGate(d.status, target)
    ensures target == Executing || target == Aborted
  {
  }

  // ---- Settling a receipt ----

  /** The rows of the receipt, of its directive and of its gate that an outcome read. */
  ghost predicate ReadsOutcome(h: seq<DB>, e: Event, id: Id, r: Row<Receipt>, d: Keyed<Directive>, g: Keyed<Gate>) {
    && InOrder(h, e) && Find(h[e.own].receipts, id) == Some(r)
    && LinkedDirective(h[e.key], h[e.link], r.body.relatedCode) == Some(d)
    && LinkedGate(h[e.far], d.row.body.relatedCode) == Some(g)
  }

  ghost predicate OutcomeCommitted(h: seq<DB>, es: seq<Event>, except: set<Id>, i: nat, id: Id, r: Row<Receipt>,
      d: Keyed<Directive>, g: Keyed<Gate>, target: Status, who: Caller) {
    && IsRun(h, es) && Honest(h, es) && Starts(h[0], except) && i < |es|
    && es[i].call == ReceiptTransition(id, r.version, target) && es[i].who == who
    && ReadsOutcome(Upto(h, i), es[i], id, r, d, g)
    && CommittedAt(h, es, i)
  }

  /** Whatever other requests commit between an outcome's reads of these rows and its commit, the gate ends at its
      goal. */
  ghost predicate OutcomeIsSafe(id: Id, r: Row<Receipt>, d: Keyed<Directive>, g: Keyed<Gate>, target: Status,
      who: Caller) {
    forall h: seq<DB>, es: seq<Event>, except: set<Id>, i: nat ::
      OutcomeCommitted(h, es, except, i, id, r, d, g, target, who) ==>
        g.id in h[i + 1].gates && h[i + 1].gates[g.id].status == GateAfterOutcome(d.row, target)
  }

  lemma OutcomeWritesIff(id: Id, r: Row<Receipt>, d: Keyed<Directive>, g: Keyed<Gate>, expected: nat, target: Status,
      who: Caller)
    requires PlanReceiptTransition(id, Some(r), Some(d), Some(g), expected, target, who).Ok? && r.status == Pending
    ensures var w := PlanReceiptTransition(id, Some(r), Some(d), Some(g), expected, target, who).value.gate;
            && (w.Write? <==> g.row.status != GateAfterOutcome(d.row, target))
            && (w.Write? ==>
                Overwrites(w, g.id, g.row.version) && w.change.row.status == GateAfterOutcome(d.row, target))
  {
    hide CanTransition, GateAfterOutcome, ReceiptAfter;
  }

  lemma OutcomePlanned(h: seq<DB>, e: Event, id: Id, r: Row<Receipt>, d: Keyed<Directive>, g: Keyed<Gate>,
      target: Status)
    requires ReadsOutcome(h, e, id, r, d, g) && e.call == ReceiptTransition(id, r.version, target) && Planned(h, e).Ok?
    requires r.status == Pending
    ensures var w := Planned(h, e).value.gate;
            && (w.Write? <==> g.row.status != GateAfterOutcome(d.row, target))
            && (w.Write? ==>
                Overwrites(w, g.id, g.row.version) && w.change.row.status == GateAfterOutcome(d.row, target))
  {
    hide FindByCode, LinkedDirective, PlanReceiptTransition, GateAfterOutcome;
    OutcomeWritesIff(id, r, d, g, r.version, target, e.who);
  }

  /** This outcome, served alone in this state, reads these rows and commits. */
  ghost predicate CanSettle(db: DB, id: Id, r: Row<Receipt>, d: Keyed<Directive>, g: Keyed<Gate>, target: Status,
      who: Caller) {
    && Find(db.receipts, id) == Some(r) && r.status == Pending
    && LinkedDirective(db, db, r.body.relatedCode) == Some(d) && LinkedGate(db, d.row.body.relatedCode) == Some(g)
    && Serially(db, ReceiptTransition(id, r.version, target), who).Ok?
  }

  /** A gate standing at an outcome's goal can be moved away between its reads and its commit: a directive completed
      on a gate that is elsewhere, or aborted on one that is unlocked. */
  lemma MovedUnderOutcome(db: DB, id: Id, r: Row<Receipt>, d: Keyed<Directive>, g: Keyed<Gate>, target: Status,
      who: Caller)
      returns (h: seq<DB>, es: seq<Event>)
    requires GateWords(db) && CanSettle(db, id, r, d, g, target, who)
    requires g.row.status == GateAfterOutcome(d.row, target)
    ensures IsRun(h, es) && Honest(h, es) && |h| == 3 && |es| == 2 && h[0] == db
    ensures es[1] == Event(ReceiptTransition(id, r.version, target), who, 0, 0, 0, 0, false)
    ensures ReadsOutcome(Upto(h, 1), es[1], id, r, d, g) && CommittedAt(h, es, 1)
    ensures d.id in h[2].directives && h[2].directives[d.id].status == OutcomeFor(target)
    ensures g.id in h[2].gates && h[2].gates[g.id].status ==
        Away(GateAfterOutcome(d.row, target)) != GateAfterOutcome(d.row, target)
  {
    hide After, FindByCode, Plan, Honest, IsRun, Commit, Targets, LinkedDirective, GateAfterOutcome;
    var call := ReceiptTransition(id, r.version, target);
    var f := Event(call, who, 0, 0, 0, 0, false);
    OutcomePlanned([db], f, id, r, d, g, target);
    AwayIsAllowed(g.row.status);
    h, es := MovedUnder(db, g, Away(g.row.status), call, who);
    SerialOutcomeGate(db, id, r.version, target, who);
    assert Upto(h, 1)[0] == db;
  }

  /** When settling a receipt is safe: of any confirmation or failure that can be served at all, from any state, the
      gate ends at its goal in every interleaving if and only if the gate it reads is not there already. */
  lemma OutcomeIsSafeIff(db: DB, except: set<Id>, id: Id, r: Row<Receipt>, d: Keyed<Directive>, g: Keyed<Gate>,
      target: Status, who: Caller)
    requires Starts(db, except) && CanSettle(db, id, r, d, g, target, who)
    ensures OutcomeIsSafe(id, r, d, g, target, who) <==> g.row.status != GateAfterOutcome(d.row, target)
  {
    hide After, Honest, Commits, Consistent, Indexed, ColumnsCopied, Planned, GateAfterOutcome, LinkedDirective,
        FindByCode, Serially;
    if g.row.status != GateAfterOutcome(d.row, target) {
      forall h: seq<DB>, es: seq<Event>, x: set<Id>, i: nat | OutcomeCommitted(h, es, x, i, id, r, d, g, target, who)
        ensures g.id in h[i + 1].gates && h[i + 1].gates[g.id].status == GateAfterOutcome(d.row, target)
      {
        StepAt(h, es, x, i);
        var past := Upto(h, i);
        OutcomePlanned(past, es[i], id, r, d, g, target);
        GateWritten(past, es[i], Planned(past, es[i]).value, g.id, g.row.version);
      }
    } else {
      assert GateWords(db) by { StartGateWords(db, except); }
      var h, es := MovedUnderOutcome(db, id, r, d, g, target, who);
      assert OutcomeCommitted(h, es, except, 1, id, r, d, g, target, who);
    }
  }
}
