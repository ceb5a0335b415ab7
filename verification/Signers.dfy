/** Whose names and times the stored signatures are: those of the requests that submitted, approved and confirmed. */
module Signers {
  import opened Prelude
  import opened Status
  import opened Model
  import opened Transactions
  import Planning
  import Text
  import opened Protocol
  import opened Evolution
  import opened OptimisticLock
  import opened Journal
  import opened Reachability
  import opened Outcomes
  import opened Effects
  import opened Validity
  import opened Races

  datatype Signature = Signature(name: string, at: Option<int>)

  function Submitted(b: Directive): Signature {
    Signature(b.submittedBy, b.submittedAt)
  }

  function ApprovedAs(b: Directive): Signature {
    Signature(b.approvedBy, b.approvedAt)
  }

  function ConfirmedAs(b: Receipt): Signature {
    Signature(b.confirmedBy, b.confirmedAt)
  }

  function Of(who: Caller): Signature {
    Signature(who.actor, Some(who.now))
  }

  /** The three places for a signature; each is filled by one kind of request. */
  datatype Place = SubmittedPlace | ApprovedPlace | ConfirmedPlace

  function SignatureIn(db: DB, place: Place, id: Id): Option<Signature> {
    match place
    case SubmittedPlace => if id in db.directives then Some(Submitted(db.directives[id].body)) else None
    case ApprovedPlace => if id in db.directives then Some(ApprovedAs(db.directives[id].body)) else None
    case ConfirmedPlace => if id in db.receipts then Some(ConfirmedAs(db.receipts[id].body)) else None
  }

  predicate Signs(call: Call, place: Place, id: Id) {
    match place
    case SubmittedPlace => call.DirectiveTransition? && call.id == id && call.target == Pending
    case ApprovedPlace => call.DirectiveTransition? && call.id == id && call.target == Approved
    case ConfirmedPlace => call.ReceiptTransition? && call.id == id && call.target == Confirmed
  }

  const UNSIGNED := Signature("", None)

  lemma SignatureAfterEdit(a: DB, b: DB, call: Call, v: Views, who: Caller, place: Place, id: Id)
    requires Becomes(a, b, call, v, who)
    requires !call.DirectiveTransition? && !call.ReceiptTransition?
    ensures SignatureIn(a, place, id).Some? ==> SignatureIn(b, place, id).Some?
    ensures SignatureIn(b, place, id).Some? ==>
              SignatureIn(b, place, id).value ==
              if Signs(call, place, id) then Of(who)
              else if SignatureIn(a, place, id).Some? then SignatureIn(a, place, id).value else UNSIGNED
  {
    hide Planning.AuditEntry, Planning.RawEntry, Text.Norm, Text.TrimSpace, GateAt, ExecutingAt, DirectiveMoved,
        ReceiptMoved;
  }

  lemma SignatureAfterMove(a: DB, b: DB, call: Call, v: Views, who: Caller, place: Place, id: Id)
    requires Becomes(a, b, call, v, who)
    requires call.DirectiveTransition? || call.ReceiptTransition?
    ensures SignatureIn(a, place, id).Some? ==> SignatureIn(b, place, id).Some?
    ensures SignatureIn(b, place, id).Some? ==>
              SignatureIn(b, place, id).value ==
              if Signs(call, place, id) then Of(who)
              else if SignatureIn(a, place, id).Some? then SignatureIn(a, place, id).value else UNSIGNED
  {
    hide Planning.AuditEntry, Planning.RawEntry, Text.Norm, Text.TrimSpace, GateAt, ExecutingAt, GateFollows;
  }

  /** One request: the signing one leaves its own name and time, any other what was there, or nothing on a new row. */
  lemma SignatureAfter(a: DB, b: DB, call: Call, v: Views, who: Caller, place: Place, id: Id)
    requires Becomes(a, b, call, v, who)
    ensures SignatureIn(a, place, id).Some? ==> SignatureIn(b, place, id).Some?
    ensures SignatureIn(b, place, id).Some? ==>
              SignatureIn(b, place, id).value ==
              if Signs(call, place, id) then Of(who)
              else if SignatureIn(a, place, id).Some? then SignatureIn(a, place, id).value else UNSIGNED
  {
    hide Becomes, SignatureIn, Signs;
    if call.DirectiveTransition? || call.ReceiptTransition? {
      SignatureAfterMove(a, b, call, v, who, place, id);
    } else {
      SignatureAfterEdit(a, b, call, v, who, place, id);
    }
  }

  ghost predicate SignedWithin(h: seq<DB>, es: seq<Event>, i: nat, place: Place, id: Id, s: Signature)
    requires IsRun(h, es) && i <= |es|
  {
    exists m :: 0 <= m < i && CommittedAt(h, es, m) && Signs(es[m].call, place, id) && s == Of(es[m].who)
  }

  /** Every signature in every state is the name and time of the request that put it there, or was there at the start;
      a row created since carries none until it is signed. */
  lemma {:induction false} SignatureHasSigner(h: seq<DB>, es: seq<Event>, except: set<Id>, i: nat, place: Place, id: Id)
    requires IsRun(h, es) && Honest(h, es) && Starts(h[0], except) && i < |h| && SignatureIn(h[i], place, id).Some?
    ensures var s := SignatureIn(h[i], place, id).value;
            || SignedWithin(h, es, i, place, id, s)
            || s == (if SignatureIn(h[0], place, id).Some? then SignatureIn(h[0], place, id).value else UNSIGNED)
  {
    hide Starts, Honest, Commits, SignatureIn, Signs, Becomes, Consistent, Indexed, After, Shown, DirectivesOrdered,
        Ordered, Planned,
      Journaled, ColumnsCopied;
    if i > 0 {
      var m := i - 1;
      var e, past := es[m], Upto(h, m);
      PrefixSound(h, es, except, m);
      assert Shown(past, e) by { HonestAt(h, es, m); }
      StepAt(h, es, except, m);
      if CommittedAt(h, es, m) {
        CommittedEffect(past, e);
        var v := if IsDelete(e.call) then ViewsAt(past, e) else ReadsAtCommit(past, e, Planned(past, e).value);
        SignatureAfter(h[m], h[i], e.call, v, e.who, place, id);
      }
      if SignatureIn(h[m], place, id).Some? {
        SignatureHasSigner(h, es, except, m, place, id);
      } else {
        StartIndexed(h[0], except);
        AbsentBefore(h, es, m, place, id);
      }
    }
  }

  lemma HonestAt(h: seq<DB>, es: seq<Event>, m: nat)
    requires IsRun(h, es) && Honest(h, es) && m < |es|
    ensures Shown(Upto(h, m), es[m])
  {
  }

  lemma AbsentBefore(h: seq<DB>, es: seq<Event>, m: nat, place: Place, id: Id)
    requires IsRun(h, es) && Indexed(h[0]) && m < |h| && SignatureIn(h[m], place, id).None?
    ensures SignatureIn(h[0], place, id).None?
  {
    hide After, Indexed;
    RunIsOrdered(h, es);
    assert Later(h[0], h[m]);
  }

  /** So the confirmer and the time of a receipt confirmed since the start are those of the request that confirmed it.
      */
  lemma ConfirmedByRequester(h: seq<DB>, es: seq<Event>, except: set<Id>, i: nat, r: Id)
    requires IsRun(h, es) && Honest(h, es) && Starts(h[0], except) && Stamped(h[0]) && i < |h|
    requires r in h[i].receipts && h[i].receipts[r].status == Confirmed
    requires r in h[0].receipts ==> h[0].receipts[r].status != Confirmed
    ensures exists m :: 0 <= m < i && CommittedAt(h, es, m)
              && es[m].call.ReceiptTransition? && es[m].call.id == r && es[m].call.target == Confirmed
              && h[i].receipts[r].body.confirmedBy == es[m].who.actor
              && h[i].receipts[r].body.confirmedAt == Some(es[m].who.now)
  {
    hide Starts, Honest, IsRun, CommittedAt;
    StartIndexed(h[0], except);
    SignaturesStamped(h, es, i);
    assert ReceiptStamped(h[i].receipts[r]) && (r in h[0].receipts ==> ReceiptStamped(h[0].receipts[r]));
    SignatureHasSigner(h, es, except, i, ConfirmedPlace, r);
    RunLength(h, es);
    var s := ConfirmedAs(h[i].receipts[r].body);
    assert SignedWithin(h, es, i, ConfirmedPlace, r, s);
    var m :| 0 <= m < i && CommittedAt(h, es, m) && Signs(es[m].call, ConfirmedPlace, r) && s == Of(es[m].who);
  }

  /** Likewise who submitted, and who approved, a directive that has been since the start. */
  lemma SubmittedByRequester(h: seq<DB>, es: seq<Event>, except: set<Id>, i: nat, d: Id)
    requires IsRun(h, es) && Honest(h, es) && Starts(h[0], except) && Stamped(h[0]) && i < |h|
    requires d in h[i].directives && h[i].directives[d].status != Draft
    requires d in h[0].directives ==> h[0].directives[d].status == Draft
    ensures exists m :: 0 <= m < i && CommittedAt(h, es, m)
              && es[m].call.DirectiveTransition? && es[m].call.id == d && es[m].call.target == Pending
              && h[i].directives[d].body.submittedBy == es[m].who.actor
              && h[i].directives[d].body.submittedAt == Some(es[m].who.now)
  {
    hide Starts, Honest, IsRun, CommittedAt;
    StartIndexed(h[0], except);
    SignaturesStamped(h, es, i);
    assert DirectiveStamped(h[i].directives[d]) && (d in h[0].directives ==> DirectiveStamped(h[0].directives[d]));
    SignatureHasSigner(h, es, except, i, SubmittedPlace, d);
    RunLength(h, es);
    var s := Submitted(h[i].directives[d].body);
    assert SignedWithin(h, es, i, SubmittedPlace, d, s);
    var m :| 0 <= m < i && CommittedAt(h, es, m) && Signs(es[m].call, SubmittedPlace, d) && s == Of(es[m].who);
  }

  lemma ApprovedByRequester(h: seq<DB>, es: seq<Event>, except: set<Id>, i: nat, d: Id)
    requires IsRun(h, es) && Honest(h, es) && Starts(h[0], except) && Stamped(h[0]) && i < |h|
    requires d in h[i].directives && h[i].directives[d].status in {Approved, Executing, Completed}
    requires d in h[0].directives ==> h[0].directives[d].status in {Draft, Pending}
    ensures exists m :: 0 <= m < i && CommittedAt(h, es, m)
              && es[m].call.DirectiveTransition? && es[m].call.id == d && es[m].call.target == Approved
              && h[i].directives[d].body.approvedBy == es[m].who.actor
              && h[i].directives[d].body.approvedAt == Some(es[m].who.now)
  {
    hide Starts, Honest, IsRun, CommittedAt;
    StartIndexed(h[0], except);
    SignaturesStamped(h, es, i);
    assert DirectiveStamped(h[i].directives[d]) && (d in h[0].directives ==> DirectiveStamped(h[0].directives[d]));
    SignatureHasSigner(h, es, except, i, ApprovedPlace, d);
    RunLength(h, es);
    var s := ApprovedAs(h[i].directives[d].body);
    assert SignedWithin(h, es, i, ApprovedPlace, d, s);
    var m :| 0 <= m < i && CommittedAt(h, es, m) && Signs(es[m].call, ApprovedPlace, d) && s == Of(es[m].who);
  }
}
