/** Runs that are serial: when every committed request has guarded all it read, the interleaving cannot be told from
    one in which each request ran alone at the moment of its commit. */
module Serial {
  import opened Prelude
  import opened Text
  import opened Status
  import opened Model
  import opened Transactions
  import opened Planning
  import opened Protocol
  import opened Evolution
  import opened OptimisticLock
  import opened Dispatch
  import opened Races

  /** Every row the request read, or would have read, is a row its transaction compares. Creations and edits that look
      at a linked row, and deletions, are not of this kind, nor are transitions that find the gate in place. */
  predicate Guarded(call: Call, tx: Tx) {
    match call
    case GateCreate(_, _, _, _) => true
    case GateUpdate(_, _, _, _) => true
    case GateTransition(_, _, _) => true
    case DirectiveTransition(_, _, target) =>
      tx.gate.Write? || (tx.directive.Write? && !ReachesGate(tx.directive.entry.before, target))
    case ReceiptTransition(_, _, _) => tx.gate.Write? || tx.directive.Skip?
    case _ => false
  }

  /** The request with all its reads at one moment; one that was refused does not take part. */
  function AtOnce(e: Event, at: nat, committed: bool): Event {
    e.(own := at, key := at, link := at, far := at, fault := e.fault || !committed)
  }

  ghost function Serialised(h: seq<DB>, es: seq<Event>): seq<Event>
    requires IsRun(h, es)
  {
    seq(|es|, m requires 0 <= m < |es| => AtOnce(es[m], m, CommittedAt(h, es, m)))
  }

  lemma TransitionIgnoresGate(id: Id, d: Option<Row<Directive>>, g1: Option<Keyed<Gate>>, g2: Option<Keyed<Gate>>,
      expected: nat, target: Status, who: Caller)
    requires d.Some? && !ReachesGate(d.value.status, target)
    ensures PlanDirectiveTransition(id, d, g1, expected, target, who) ==
        PlanDirectiveTransition(id, d, g2, expected, target, who)
  {
  }

  lemma SettledIgnoresLinks(id: Id, r: Row<Receipt>, d1: Option<Keyed<Directive>>, g1: Option<Keyed<Gate>>,
      d2: Option<Keyed<Directive>>, g2: Option<Keyed<Gate>>, expected: nat, target: Status, who: Caller)
    requires r.status != Pending
    ensures PlanReceiptTransition(id, Some(r), d1, g1, expected, target, who) ==
        PlanReceiptTransition(id, Some(r), d2, g2, expected, target, who)
  {
  }

  lemma PlannedFromLive(id: Id, d: Option<Row<Directive>>, g: Option<Keyed<Gate>>, expected: nat, target: Status,
      who: Caller)
    requires PlanDirectiveTransition(id, d, g, expected, target, who).Ok?
    ensures d.Some? && PlanDirectiveTransition(id, d, g, expected, target, who).value.directive.Write?
    ensures PlanDirectiveTransition(id, d, g, expected, target, who).value.directive.entry.before == d.value.status
  {
    hide EqualFold, MoveGate, GateBlocked, ApprovalFor, DispatchTarget;
  }

  lemma OutcomeFromLive(id: Id, r: Option<Row<Receipt>>, d: Option<Keyed<Directive>>, g: Option<Keyed<Gate>>,
      expected: nat,
      target: Status, who: Caller)
    requires PlanReceiptTransition(id, r, d, g, expected, target, who).Ok?
    ensures r.Some?
    ensures var tx := PlanReceiptTransition(id, r, d, g, expected, target, who).value;
            && (tx.directive.Write? <==> r.value.status == Pending)
            && (tx.gate.Write? ==> tx.directive.Write?)
  {
    hide MoveGate, GateBlocked, GateAfterOutcome;
  }

  /** A guarded request plans the same from its reads at commit as from the commit-time state alone. */
  lemma GuardedPlan(now: DB, v: Views, call: Call, who: Caller, tx: Tx)
    requires Plan(call, v, who) == Ok(tx) && Guarded(call, tx) && v.own == now
    requires tx.directive.Write? && !call.DirectiveTransition? ==> v.key == now && v.link == now
    requires tx.gate.Write? && !call.GateUpdate? && !call.GateTransition? && !call.GateCreate? ==> v.far == now
    ensures Plan(call, Views(now, now, now, now), who) == Ok(tx)
  {
    if call.DirectiveTransition? {
      hide PlanDirectiveTransition, FindByCode;
      var d := Find(now.directives, call.id);
      var g := if d.None? then None else LinkedGate(v.far, d.value.body.relatedCode);
      PlannedFromLive(call.id, d, g, call.expected, call.target, who);
      if tx.gate.Skip? {
        TransitionIgnoresGate(call.id, d, g, LinkedGate(now, d.value.body.relatedCode), call.expected, call.target,
            who);
      }
    } else if call.ReceiptTransition? {
      hide PlanReceiptTransition, FindByCode, LinkedDirective;
      var r := Find(now.receipts, call.id);
      var d := if r.None? then None else LinkedDirective(v.key, v.link, r.value.body.relatedCode);
      var g := if d.None? then None else LinkedGate(v.far, d.value.row.body.relatedCode);
      OutcomeFromLive(call.id, r, d, g, call.expected, call.target, who);
      if r.value.status != Pending {
        var e := LinkedDirective(now, now, r.value.body.relatedCode);
        var f := if e.None? then None else LinkedGate(now, e.value.row.body.relatedCode);
        SettledIgnoresLinks(call.id, r.value, d, g, e, f, call.expected, call.target, who);
      }
    } else {
      hide PlanGateCreate, PlanGateUpdate, PlanGateTransition, PlanDirectiveTransition, PlanReceiptTransition;
    }
  }

  lemma GuardedStep(h: seq<DB>, e: Event)
    requires Ordered(h) && InOrder(h, e) && Commits(h, e) && Shown(h, e) && Guarded(e.call, Planned(h, e).value)
    ensures var f := AtOnce(e, |h| - 1, true);
            InOrder(h, f) && Planned(h, f) == Planned(h, e) && Commits(h, f) && After(h, f) == After(h, e)
    ensures Serially(Now(h), e.call, e.who) == Ok(After(h, e))
  {
    hide Plan, Commit, Shown, Ordered;
    ReadsSettleAtCommit(h, e);
    var tx := Planned(h, e).value;
    GuardedPlan(Now(h), ReadsAtCommit(h, e, tx), e.call, e.who, tx);
  }

  lemma ShownLater(h: seq<DB>, e: Event, committed: bool)
    requires InOrder(h, e) && Shown(h, e)
    ensures Shown(h, AtOnce(e, |h| - 1, committed))
  {
    hide VersionIn;
    var f := AtOnce(e, |h| - 1, committed);
    if HasExpected(e.call) {
      var s :| 0 <= s <= e.own && VersionIn(h[s], e.call) == Some(e.call.expected);
      assert VersionIn(h[s], f.call) == Some(f.call.expected);
    }
  }

  lemma RefusedAtOnce(h: seq<DB>, e: Event)
    requires InOrder(h, e)
    ensures var f := AtOnce(e, |h| - 1, false);
            InOrder(h, f) && After(h, f) == Now(h)
  {
  }

  /** Serialisability: an honest run in which every committed request is guarded is also the run of the same requests
      with all reads of each at its commit, state for state, and honest. */
  lemma GuardedRunIsSerial(h: seq<DB>, es: seq<Event>)
    requires IsRun(h, es) && Honest(h, es) && Indexed(h[0])
    requires forall m :: 0 <= m < |es| && CommittedAt(h, es, m) ==>
        Guarded(es[m].call, Planned(Upto(h, m), es[m]).value)
    ensures IsRun(h, Serialised(h, es)) && Honest(h, Serialised(h, es))
    ensures forall m :: 0 <= m < |es| ==> (Commits(Upto(h, m), Serialised(h, es)[m]) <==> CommittedAt(h, es, m))
    ensures forall m :: 0 <= m < |es| && CommittedAt(h, es, m) ==> Serially(h[m], es[m].call, es[m].who) == Ok(h[m + 1])
  {
    hide After, Shown, Commits, Planned, Indexed, Guarded, Serially;
    var fs := Serialised(h, es);
    forall m | 0 <= m < |es|
      ensures InOrder(Upto(h, m), fs[m]) && h[m + 1] == After(Upto(h, m), fs[m]) && Shown(Upto(h, m), fs[m])
      ensures Commits(Upto(h, m), fs[m]) <==> CommittedAt(h, es, m)
      ensures CommittedAt(h, es, m) ==> Serially(h[m], es[m].call, es[m].who) == Ok(h[m + 1])
    {
      SerialStep(h, es, m);
    }
  }

  lemma SerialStep(h: seq<DB>, es: seq<Event>, m: nat)
    requires IsRun(h, es) && Honest(h, es) && Indexed(h[0]) && m < |es|
    requires CommittedAt(h, es, m) ==> Guarded(es[m].call, Planned(Upto(h, m), es[m]).value)
    ensures var past, f := Upto(h, m), Serialised(h, es)[m];
            && InOrder(past, f) && h[m + 1] == After(past, f) && Shown(past, f)
            && (Commits(past, f) <==> CommittedAt(h, es, m))
    ensures CommittedAt(h, es, m) ==> Serially(h[m], es[m].call, es[m].who) == Ok(h[m + 1])
  {
    hide After, Shown, Planned, Indexed, Guarded, Ordered, Serially;
    var past, e := Upto(h, m), es[m];
    RunPrefix(h, es, m);
    RunIsOrdered(past, es[..m]);
    assert Shown(past, e) && h[m + 1] == After(past, e);
    ShownLater(past, e, CommittedAt(h, es, m));
    if CommittedAt(h, es, m) {
      GuardedStep(past, e);
    } else {
      RefusedAtOnce(past, e);
      RefusedStays(past, e);
    }
  }
}
