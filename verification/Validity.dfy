/** What every stored row and audit entry has, and what stored links point to, over whole runs. */
module Validity {
  import opened Prelude
  import opened Text
  import opened Status
  import opened Model
  import opened Transactions
  import opened Planning
  import opened Protocol
  import opened Evolution
  import opened OptimisticLock
  import opened Agreement
  import opened Reachability
  import opened Outcomes

  // ---- Required columns ----

  /** What is left after trimming is not blank, unless nothing is. */
  lemma TrimmedStays(s: string)
    requires !Blankish(s)
    ensures !Blankish(TrimSpace(s)) && !Blankish(Norm(s))
  {
    TrimLeftStartsSolid(s);
    TrimRightEndsSolid(TrimLeft(s));
    var t := TrimSpace(s);
    assert Trimmed(t) && t != [];
    assert Trimmed(Norm(s)) && Norm(s) != [];
  }

  predicate Named(code: string, facility: string, p: Payload) {
    !Blankish(code) && !Blankish(facility) && !Blankish(p.name) && !Blankish(p.owner)
  }

  predicate GateFilled(r: Row<Gate>) {
    Named(r.code, r.body.facility, r.body.payload)
  }

  predicate DirectiveFilled(r: Row<Directive>) {
    Named(r.code, r.body.facility, r.body.payload) && r.body.gateState != Blank
  }

  predicate ReceiptFilled(r: Row<Receipt>) {
    Named(r.code, r.body.facility, r.body.payload)
  }

  /** Every stored row has a code, a facility, a name and an owner that are not blank; a directive has a target. */
  ghost predicate Filled(db: DB) {
    && (forall id :: id in db.gates ==> GateFilled(db.gates[id]))
    && (forall id :: id in db.directives ==> DirectiveFilled(db.directives[id]))
    && (forall id :: id in db.receipts ==> ReceiptFilled(db.receipts[id]))
  }

  ghost predicate Writes<T(!new)>(w: RowWrite<T>, ok: Row<T> -> bool) {
    w.Write? && !w.change.SoftDelete? ==> ok(w.change.row)
  }

  ghost predicate TxFilled(tx: Tx) {
    Writes(tx.gate, GateFilled) && Writes(tx.directive, DirectiveFilled) && Writes(tx.receipt, ReceiptFilled)
  }

  lemma FieldsFilled(code: string, f: Fields)
    requires !BusinessFieldsMissing(code, f)
    ensures Named(Norm(code), TrimSpace(f.facility), PayloadOf(f)) && Named(code, TrimSpace(f.facility), PayloadOf(f))
  {
    hide TrimSpace, Norm;
    TrimmedStays(code);
    TrimmedStays(f.name);
    TrimmedStays(f.facility);
    TrimmedStays(f.owner);
  }

  lemma GatePlanFilled(call: Call, v: Views, who: Caller)
    requires call.GateCreate? || call.GateUpdate? || call.GateTransition? || call.GateDelete?
    requires Plan(call, v, who).Ok? && Filled(v.own)
    ensures TxFilled(Plan(call, v, who).value)
  {
    hide BusinessFieldsMissing, Blankish, PayloadOf, TrimSpace, EqualFold, CanTransition;
    if call.GateCreate? {
      FieldsFilled(call.code, call.fields);
    } else if call.GateUpdate? {
      FieldsFilled(v.own.gates[call.id].code, call.fields);
    }
  }

  lemma DirectivePlanFilled(call: Call, v: Views, who: Caller)
    requires call.DirectiveCreate? || call.DirectiveUpdate? || call.DirectiveDelete?
    requires Plan(call, v, who).Ok? && Filled(v.own)
    ensures TxFilled(Plan(call, v, who).value)
  {
    hide BusinessFieldsMissing, Blankish, PayloadOf, TrimSpace, EqualFold, LinkedGate, GateUnfit;
    if call.DirectiveCreate? {
      FieldsFilled(call.code, call.fields);
    } else if call.DirectiveUpdate? {
      FieldsFilled(v.own.directives[call.id].code, call.fields);
    }
  }

  lemma DirectiveTransitionFilled(id: Id, current: Option<Row<Directive>>, gate: Option<Keyed<Gate>>, expected: nat,
      target: Status, who: Caller)
    requires PlanDirectiveTransition(id, current, gate, expected, target, who).Ok?
    requires current.Some? ==> DirectiveFilled(current.value)
    requires gate.Some? ==> GateFilled(gate.value.row)
    ensures TxFilled(PlanDirectiveTransition(id, current, gate, expected, target, who).value)
  {
    hide Blankish, CanTransition, EqualFold, ApprovalFor, DispatchTarget;
  }

  lemma ReceiptTransitionFilled(id: Id, current: Option<Row<Receipt>>, d: Option<Keyed<Directive>>,
      gate: Option<Keyed<Gate>>, expected: nat, target: Status, who: Caller)
    requires PlanReceiptTransition(id, current, d, gate, expected, target, who).Ok?
    requires current.Some? ==> ReceiptFilled(current.value)
    requires d.Some? ==> DirectiveFilled(d.value.row)
    requires gate.Some? ==> GateFilled(gate.value.row)
    ensures TxFilled(PlanReceiptTransition(id, current, d, gate, expected, target, who).value)
  {
    hide Blankish, CanTransition, GateAfterOutcome;
  }

  lemma ReceiptEditFilled(call: Call, v: Views, who: Caller)
    requires call.ReceiptCreate? || call.ReceiptUpdate? || call.ReceiptDelete?
    requires Plan(call, v, who).Ok? && Filled(v.own) && Filled(v.link)
    ensures TxFilled(Plan(call, v, who).value)
  {
    hide BusinessFieldsMissing, Blankish, PayloadOf, TrimSpace, EqualFold, FindByCode, HasReceipt;
    if call.ReceiptCreate? {
      FieldsFilled(call.code, call.fields);
    } else if call.ReceiptUpdate? {
      FieldsFilled(v.own.receipts[call.id].code, call.fields);
    }
  }

  lemma PlanFilled(call: Call, v: Views, who: Caller)
    requires Plan(call, v, who).Ok? && Filled(v.own) && Filled(v.link) && Filled(v.far)
    ensures TxFilled(Plan(call, v, who).value)
  {
    hide PlanDirectiveTransition, PlanReceiptTransition, TxFilled, GateFilled, DirectiveFilled, ReceiptFilled;
    if call.DirectiveTransition? {
      var current := Find(v.own.directives, call.id);
      var gate := if current.None? then None else LinkedGate(v.far, current.value.body.relatedCode);
      DirectiveTransitionFilled(call.id, current, gate, call.expected, call.target, who);
    } else if call.ReceiptTransition? {
      var current := Find(v.own.receipts, call.id);
      var d := if current.None? then None else LinkedDirective(v.key, v.link, current.value.body.relatedCode);
      var gate := if d.None? then None else LinkedGate(v.far, d.value.row.body.relatedCode);
      ReceiptTransitionFilled(call.id, current, d, gate, call.expected, call.target, who);
    } else if call.ReceiptCreate? || call.ReceiptUpdate? || call.ReceiptDelete? {
      ReceiptEditFilled(call, v, who);
    } else if call.DirectiveCreate? || call.DirectiveUpdate? || call.DirectiveDelete? {
      DirectivePlanFilled(call, v, who);
    } else {
      GatePlanFilled(call, v, who);
    }
  }

  lemma CommitFilled(db: DB, tx: Tx)
    requires Filled(db) && TxFilled(tx) && Commit(db, tx).Ok?
    ensures Filled(Commit(db, tx).value)
  {
    hide Commit, Blankish, LinkClash, StageTaken;
    CommitEffect(db, tx);
  }

  /** Required columns stay filled in every state of every run, whatever the clients send and however requests
      interleave, although rows are rewritten whole from rows read earlier. */
  lemma {:induction false} RowsStayFilled(h: seq<DB>, es: seq<Event>, i: nat)
    requires IsRun(h, es) && Filled(h[0]) && i < |h|
    ensures forall k :: 0 <= k <= i ==> Filled(h[k])
  {
    hide Filled, Plan, Commit, TxFilled;
    if i > 0 {
      RowsStayFilled(h, es, i - 1);
      var past, e := Upto(h, i - 1), es[i - 1];
      assert h[i] == After(past, e) && Now(past) == h[i - 1];
      if Commits(past, e) {
        PlanFilled(e.call, ViewsAt(past, e), e.who);
        CommitFilled(h[i - 1], Planned(past, e).value);
      }
    }
  }

  // ---- Signature times ----

  /** A submission time exactly from submission on, no approval time before approval, one from approval on. */
  predicate DirectiveStamped(r: Row<Directive>) {
    && (r.status == Draft <==> r.body.submittedAt.None?)
    && (r.status == Draft || r.status == Pending ==> r.body.approvedAt.None? && r.body.approvedBy == "")
    && (r.status == Approved || r.status == Executing || r.status == Completed ==> r.body.approvedAt.Some?)
  }

  /** A confirmation time exactly on confirmed receipts, and no confirmer on any other. */
  predicate ReceiptStamped(r: Row<Receipt>) {
    && (r.status == Confirmed <==> r.body.confirmedAt.Some?)
    && (r.status != Confirmed ==> r.body.confirmedBy == "")
  }

  ghost predicate Stamped(db: DB) {
    && (forall id :: id in db.directives ==> DirectiveStamped(db.directives[id]))
    && (forall id :: id in db.receipts ==> ReceiptStamped(db.receipts[id]))
  }

  ghost predicate TxStamped(tx: Tx) {
    Writes(tx.directive, DirectiveStamped) && Writes(tx.receipt, ReceiptStamped)
  }

  lemma DirectiveTransitionStamped(id: Id, current: Option<Row<Directive>>, gate: Option<Keyed<Gate>>, expected: nat,
      target: Status, who: Caller)
    requires PlanDirectiveTransition(id, current, gate, expected, target, who).Ok?
    requires current.Some? ==> DirectiveStamped(current.value)
    ensures TxStamped(PlanDirectiveTransition(id, current, gate, expected, target, who).value)
  {
    hide EqualFold, ApprovalFor, DispatchTarget, MoveGate, GateBlocked, DirectiveRoleAllowed;
  }

  lemma ReceiptTransitionStamped(id: Id, current: Option<Row<Receipt>>, d: Option<Keyed<Directive>>,
      gate: Option<Keyed<Gate>>, expected: nat, target: Status, who: Caller)
    requires PlanReceiptTransition(id, current, d, gate, expected, target, who).Ok?
    requires current.Some? ==> ReceiptStamped(current.value)
    requires PlanReceiptTransition(id, current, d, gate, expected, target, who).value.directive.Write? && d.Some? ==>
        DirectiveStamped(d.value.row)
    ensures TxStamped(PlanReceiptTransition(id, current, d, gate, expected, target, who).value)
  {
    hide GateAfterOutcome, MoveGate, GateBlocked;
  }

  lemma EditStamped(call: Call, v: Views, who: Caller)
    requires !call.DirectiveTransition? && !call.ReceiptTransition?
    requires Plan(call, v, who).Ok? && (HasExpected(call) ==> Stamped(v.own))
    ensures TxStamped(Plan(call, v, who).value)
  {
    hide BusinessFieldsMissing, EqualFold, CanTransition, PayloadOf, LinkedDirective, LinkedGate, HasReceipt, Norm,
        TrimSpace, GateUnfit;
  }

  lemma PlanStamped(call: Call, v: Views, who: Caller)
    requires Plan(call, v, who).Ok? && (HasExpected(call) ==> Stamped(v.own))
    requires Plan(call, v, who).value.directive.Write? ==> Stamped(v.link)
    ensures TxStamped(Plan(call, v, who).value)
  {
    hide PlanDirectiveTransition, PlanReceiptTransition, TxStamped, DirectiveStamped, ReceiptStamped, FindByCode;
    if call.DirectiveTransition? {
      var current := Find(v.own.directives, call.id);
      var gate := if current.None? then None else LinkedGate(v.far, current.value.body.relatedCode);
      DirectiveTransitionStamped(call.id, current, gate, call.expected, call.target, who);
    } else if call.ReceiptTransition? {
      var current := Find(v.own.receipts, call.id);
      var d := if current.None? then None else LinkedDirective(v.key, v.link, current.value.body.relatedCode);
      var gate := if d.None? then None else LinkedGate(v.far, d.value.row.body.relatedCode);
      ReceiptTransitionStamped(call.id, current, d, gate, call.expected, call.target, who);
    } else {
      EditStamped(call, v, who);
    }
  }

  lemma CommitStamped(db: DB, tx: Tx)
    requires Stamped(db) && TxStamped(tx) && Commit(db, tx).Ok?
    ensures Stamped(Commit(db, tx).value)
  {
    hide Commit, LinkClash, StageTaken, DirectiveStamped, ReceiptStamped;
    CommitEffect(db, tx);
    var next := Commit(db, tx).value;
    forall id | id in next.directives
      ensures DirectiveStamped(next.directives[id])
    {
      DirectiveStaysStamped(db.directives, tx.directive, next.directives, id);
    }
    forall id | id in next.receipts
      ensures ReceiptStamped(next.receipts[id])
    {
      ReceiptStaysStamped(db.receipts, tx.receipt, next.receipts, id);
    }
  }

  lemma DirectiveStaysStamped(t: Table<Directive>, w: RowWrite<Directive>, u: Table<Directive>, id: Id)
    requires Written(t, w, u) && Writes(w, DirectiveStamped) && id in u && (id in t ==> DirectiveStamped(t[id]))
    ensures DirectiveStamped(u[id])
  {
  }

  lemma ReceiptStaysStamped(t: Table<Receipt>, w: RowWrite<Receipt>, u: Table<Receipt>, id: Id)
    requires Written(t, w, u) && Writes(w, ReceiptStamped) && id in u && (id in t ==> ReceiptStamped(t[id]))
    ensures ReceiptStamped(u[id])
  {
  }

  lemma StepStamped(h: seq<DB>, e: Event)
    requires Ordered(h) && InOrder(h, e) && Commits(h, e) && Shown(h, e) && Stamped(Now(h))
    ensures Stamped(After(h, e))
  {
    hide Plan, Commit, Shown, Ordered, TxStamped, Stamped;
    var tx := Planned(h, e).value;
    if IsDelete(e.call) {
      EditStamped(e.call, ViewsAt(h, e), e.who);
    } else {
      var v := SettledPlan(h, e, tx);
      PlanStamped(e.call, v, e.who);
    }
    CommitStamped(Now(h), tx);
  }

  /** Signatures and their times come and go with the statuses they belong to, in every state of every run. */
  lemma {:induction false} SignaturesStamped(h: seq<DB>, es: seq<Event>, i: nat)
    requires IsRun(h, es) && Honest(h, es) && Indexed(h[0]) && Stamped(h[0]) && i < |h|
    ensures Stamped(h[i])
  {
    hide After, Shown, Stamped, Indexed;
    if i > 0 {
      SignaturesStamped(h, es, i - 1);
      RunPrefix(h, es, i - 1);
      var past, e := Upto(h, i - 1), es[i - 1];
      RunIsOrdered(past, es[..i - 1]);
      assert h[i] == After(past, e) && Now(past) == h[i - 1] && Shown(past, e);
      hide Commits;
      if Commits(past, e) {
        StepStamped(past, e);
      } else {
        RefusedStays(past, e);
      }
    }
  }

  // ---- Who and when ----

  /** The directive and gate services write the entries of their own transitions themselves. */
  predicate OwnEntry(a: Audit) {
    a.action == TransitionAction && a.kind != ExecutionConfirmation
  }

  /** An empty actor or request id is replaced by a fixed word, except in the services' own entries; the time is the
      request's, or read when the entry is written. */
  predicate SpeaksFor(a: Audit, who: Caller) {
    && a.createdAt == (if OwnEntry(a) then who.now else EntryTime(who, a.kind))
    && a.actor == (if who.actor != "" || OwnEntry(a) then who.actor else "system")
    && a.requestId == (if who.requestId != "" || OwnEntry(a) then who.requestId else "untracked")
  }

  /** Only an entry the services write themselves may lack its actor or request. */
  predicate Attributed(a: Audit) {
    (a.actor != "" && a.requestId != "") || OwnEntry(a)
  }

  lemma EntriesSpeak(who: Caller)
    ensures forall action, kind, id, before, after ::
              var a := AuditEntry(who, action, kind, id, before, after);
                  Attributed(a) && (!OwnEntry(a) ==> SpeaksFor(a, who))
    ensures forall kind, id, before, after ::
              kind != ExecutionConfirmation ==>
                var a := RawEntry(who, kind, id, before, after); Attributed(a) && SpeaksFor(a, who)
    ensures forall action, kind, id, before, after ::
              action != TransitionAction || kind == ExecutionConfirmation ==>
                !OwnEntry(AuditEntry(who, action, kind, id, before, after))
  {
  }

  ghost predicate AllAttributed(tx: Tx, who: Caller) {
    forall a :: a in Entry(tx.receipt) + Entry(tx.directive) + Entry(tx.gate) ==> Attributed(a) && SpeaksFor(a, who)
  }

  lemma TransitionAttributed(id: Id, current: Option<Row<Directive>>, gate: Option<Keyed<Gate>>, expected: nat,
      target: Status, who: Caller)
    requires PlanDirectiveTransition(id, current, gate, expected, target, who).Ok?
    ensures AllAttributed(PlanDirectiveTransition(id, current, gate, expected, target, who).value, who)
  {
    hide EqualFold, CanTransition, ApprovalFor, DispatchTarget, DirectiveRoleAllowed, DirectiveAfter, AuditEntry,
      RawEntry, Attributed, SpeaksFor;
    EntriesSpeak(who);
  }

  lemma OutcomeAttributed(id: Id, current: Option<Row<Receipt>>, d: Option<Keyed<Directive>>,
      gate: Option<Keyed<Gate>>, expected: nat, target: Status, who: Caller)
    requires PlanReceiptTransition(id, current, d, gate, expected, target, who).Ok?
    ensures AllAttributed(PlanReceiptTransition(id, current, d, gate, expected, target, who).value, who)
  {
    hide CanTransition, GateAfterOutcome, ReceiptAfter, AuditEntry, Attributed, SpeaksFor;
    EntriesSpeak(who);
  }

  lemma PlanAttributed(call: Call, v: Views, who: Caller)
    requires Plan(call, v, who).Ok?
    ensures AllAttributed(Plan(call, v, who).value, who)
  {
    hide BusinessFieldsMissing, EqualFold, CanTransition, PayloadOf, HasReceipt, FindByCode, Norm, TrimSpace, GateUnfit,
      ReceiptBody, GateBody, AuditEntry, RawEntry, Attributed, SpeaksFor, PlanDirectiveTransition,
          PlanReceiptTransition;
    if call.DirectiveTransition? {
      var current := Find(v.own.directives, call.id);
      var gate := if current.None? then None else LinkedGate(v.far, current.value.body.relatedCode);
      TransitionAttributed(call.id, current, gate, call.expected, call.target, who);
    } else if call.ReceiptTransition? {
      var current := Find(v.own.receipts, call.id);
      var d := if current.None? then None else LinkedDirective(v.key, v.link, current.value.body.relatedCode);
      var gate := if d.None? then None else LinkedGate(v.far, d.value.row.body.relatedCode);
      OutcomeAttributed(call.id, current, d, gate, call.expected, call.target, who);
    } else {
      EntriesSpeak(who);
    }
  }

  lemma StepEntries(h: seq<DB>, e: Event)
    requires InOrder(h, e)
    ensures Now(h).audits <= After(h, e).audits
    ensures |After(h, e).audits| <= |Now(h).audits| + 3
    ensures forall k :: |Now(h).audits| <= k < |After(h, e).audits| ==>
        Attributed(After(h, e).audits[k]) && SpeaksFor(After(h, e).audits[k], e.who)
  {
    hide Plan, Commit, Attributed, SpeaksFor;
    if Commits(h, e) {
      var tx := Planned(h, e).value;
      PlanAttributed(e.call, ViewsAt(h, e), e.who);
      CommitEffect(Now(h), tx);
      var added := Entry(tx.receipt) + Entry(tx.directive) + Entry(tx.gate);
      assert After(h, e).audits == Now(h).audits + added;
      assert forall k :: |Now(h).audits| <= k < |After(h, e).audits| ==> After(h, e).audits[k] in added;
    }
  }

  /** Whatever the clients send, each request adds at most three entries, all in the name of the actor who made it, and
      only entries the gate and directive services write themselves can be without a name. */
  lemma EntriesNameTheRequester(h: seq<DB>, es: seq<Event>, i: nat)
    requires IsRun(h, es) && i < |es|
    ensures h[i].audits <= h[i + 1].audits && |h[i + 1].audits| <= |h[i].audits| + 3
    ensures var n, log := |h[i].audits|, h[i + 1].audits;
            forall k :: n <= k < |log| ==> Attributed(log[k]) && SpeaksFor(log[k], es[i].who)
  {
    hide After, Attributed, SpeaksFor;
    assert Now(Upto(h, i)) == h[i] && h[i + 1] == After(Upto(h, i), es[i]);
    StepEntries(Upto(h, i), es[i]);
  }

  // ---- What stored links point to ----

  lemma WrittenDirective(h: seq<DB>, e: Event)
    requires InOrder(h, e) && Commits(h, e) && (e.call.DirectiveCreate? || e.call.DirectiveUpdate?)
    ensures var d := if e.call.DirectiveCreate? then e.call.newId else e.call.id;
            && d in After(h, e).directives
            && After(h, e).directives[d].body.relatedCode == Norm(e.call.fields.relatedCode)
    ensures var gate := LinkedGate(h[e.far], e.call.fields.relatedCode);
            && gate.Some? && gate.value.row.status != Locked
                && EqualFold(TrimSpace(e.call.fields.facility), gate.value.row.body.facility)
  {
    hide Norm, TrimSpace, EqualFold, BusinessFieldsMissing, FindByCode, PayloadOf, LinkClash, StageTaken;
  }

  /** A directive's stored gate link was checked against an unlocked gate of its facility; from then on it resolves
      to the key of that gate or to nothing, never to another. */
  lemma GateLinkResolvesAsChecked(h: seq<DB>, es: seq<Event>, i: nat, j: nat)
    requires IsRun(h, es) && Indexed(h[0]) && i < |es| && i < j < |h|
    requires (es[i].call.DirectiveCreate? || es[i].call.DirectiveUpdate?) && Commits(Upto(h, i), es[i])
    ensures var e := es[i];
            var d := if e.call.DirectiveCreate? then e.call.newId else e.call.id;
            var gate := LinkedGate(h[e.far], e.call.fields.relatedCode);
            && gate.Some? && gate.value.row.status != Locked
                && EqualFold(TrimSpace(e.call.fields.facility), gate.value.row.body.facility)
            && d in h[i + 1].directives
            && var found := LinkedGate(h[j], h[i + 1].directives[d].body.relatedCode);
               found.Some? ==> found.value.id == gate.value.id
  {
    hide Plan, Commit, Commits, After, FindByCode, Norm, EqualFold, TrimSpace, Indexed;
    var past, e := Upto(h, i), es[i];
    WrittenDirective(past, e);
    assert h[i + 1] == After(past, e) && past[e.far] == h[e.far];
    NormIdempotent(e.call.fields.relatedCode);
    LinksResolveAlike(h, es, e.far, j, Norm(e.call.fields.relatedCode));
  }

  lemma CheckedDirective(h: seq<DB>, e: Event)
    requires InOrder(h, e) && Commits(h, e) && e.call.ReceiptCreate?
    ensures var d := LinkedDirective(h[e.key], h[e.link], e.call.fields.relatedCode);
            d.Some? && d.value.row.status == Executing && LinkOf(h, e) == Some(d.value.row.code)
  {
    hide LinkedDirective, HasReceipt, BusinessFieldsMissing, Norm;
  }

  lemma ResolvedCode(key: DB, link: DB, code: string)
    requires TableLater(key.directives, link.directives) && LinkedDirective(key, link, code).Some?
    ensures var d := LinkedDirective(key, link, code).value;
            d.row.code == Norm(code) && FindByCode(key.directives, d.row.code).Some?
                && FindByCode(key.directives, d.row.code).value.id == d.id
  {
    var hit := FindByCode(key.directives, Norm(code)).value;
    assert CarriesCode(key.directives, hit.id, Norm(code));
  }

  /** A receipt's stored link was checked against an executing directive; the receipt keeps it, and it resolves for
      ever to the key of that directive or to nothing. */
  lemma ReceiptLinkResolvesAsChecked(h: seq<DB>, es: seq<Event>, except: set<Id>, i: nat, j: nat)
    requires IsRun(h, es) && Honest(h, es) && Starts(h[0], except) && i < |es| && i < j < |h|
    requires es[i].call.ReceiptCreate? && Commits(Upto(h, i), es[i])
    ensures var e := es[i];
            var d := LinkedDirective(h[e.key], h[e.link], e.call.fields.relatedCode);
            && d.Some? && d.value.row.status == Executing
            && e.call.newId in h[j].receipts && h[j].receipts[e.call.newId].body.relatedCode == d.value.row.code
            && var found := FindByCode(h[j].directives, d.value.row.code);
               found.Some? ==> found.value.id == d.value.id
  {
    hide Plan, Commit, Commits, After, FindByCode, LinkedDirective, Norm, Starts, Honest, Indexed, Consistent;
    var past, e := Upto(h, i), es[i];
    CheckedDirective(past, e);
    CreatedAt(past, e);
    assert h[i + 1] == After(past, e) && past[e.key] == h[e.key] && past[e.link] == h[e.link];
    LinkStays(h, es, except, i + 1, j, e.call.newId);
    StartIndexed(h[0], except);
    RunIsOrdered(h, es);
    assert Later(h[e.key], h[e.link]);
    ResolvedCode(h[e.key], h[e.link], e.call.fields.relatedCode);
    LinksResolveAlike(h, es, e.key, j, LinkOf(past, e).value);
  }

  lemma StartIndexed(db: DB, except: set<Id>)
    requires Starts(db, except)
    ensures Indexed(db)
  {
  }
}
