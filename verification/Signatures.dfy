/** The two-person rule as the stored evidence shows it, over whole runs. */
module Signatures {
  import opened Prelude
  import opened Text
  import opened Status
  import opened Model
  import opened Transactions
  import opened Planning
  import opened Protocol
  import opened Evolution
  import opened Grounding
  import opened Agreement
  import opened Evidence
  import opened Journal
  import opened Reachability
  import opened Outcomes
  import opened Trail

  /** Exactly these two records name the directive, in this order of insertion or the other. */
  ghost predicate ExactlyTwo(s: seq<Approval>, d: Id, b: Directive, first: nat, second: nat) {
    && SubmissionAt(s, first, d, b) && ApprovalAt(s, second, d, b) && first != second
    && forall k :: 0 <= k < |s| && s[k].directiveId == d ==> k == first || k == second
  }

  /** Two-person evidence: an approved, executing or completed directive has exactly one submission and one approval
      record, each matching its signature, and no account name is, in any casing, behind both. */
  lemma TwoPersonEvidence(h: seq<DB>, es: seq<Event>, except: set<Id>, i: nat, d: Id) returns (first: nat, second: nat)
    requires IsRun(h, es) && Honest(h, es) && Starts(h[0], except) && i < |h|
    requires d in h[i].directives && Approvable(h[i].directives[d].status)
    ensures TwoPersons(h[i].directives[d].body)
    ensures ExactlyTwo(h[i].approvals, d, h[i].directives[d].body, first, second)
    ensures h[i].approvals[first].role in {Operator, Admin} && h[i].approvals[second].role in {Reviewer, Admin}
    ensures forall name ::
        !(SameLetters(name, h[i].approvals[first].actor) && SameLetters(name, h[i].approvals[second].actor))
  {
    hide Starts, After, Shown, Journaled, ColumnsCopied, DirectivesOrdered, InAgreement, LinksStored, GateWords,
        UniqueCodes, UniqueLinks, Later, EqualFold, SameLetters;
    RunIsSound(h, es, except);
    assert Consistent(h[i]) && Indexed(h[i]) && Evidenced(h[i]);
    var s, b := h[i].approvals, h[i].directives[d].body;
    assert EvidenceFor(s, d, h[i].directives[d]);
    first :| SubmissionAt(s, first, d, b);
    second :| ApprovalAt(s, second, d, b);
    assert RecordOf(s, second, d, ApprovedStage);
    forall name | SameLetters(name, s[first].actor) && SameLetters(name, s[second].actor)
      ensures false
    {
      EqualFoldIff(name, s[first].actor);
      EqualFoldIff(name, s[second].actor);
      EqualFoldIsEquivalence(s[first].actor, name, s[second].actor);
      EqualFoldIsEquivalence(name, s[first].actor, name);
    }
    forall k | 0 <= k < |s| && s[k].directiveId == d
      ensures k == first || k == second
    {
      assert s[k].stage == SubmittedStage || s[k].stage == ApprovedStage;
    }
  }

  /** A draft has no record and a pending directive exactly its submission. */
  lemma EarlyEvidence(h: seq<DB>, es: seq<Event>, except: set<Id>, i: nat, d: Id)
    requires IsRun(h, es) && Honest(h, es) && Starts(h[0], except) && i < |h| && d in h[i].directives
    ensures h[i].directives[d].status == Draft ==> forall k :: 0 <= k < |h[i].approvals| ==>
        h[i].approvals[k].directiveId != d
    ensures h[i].directives[d].status == Pending ==>
              exists first :: SubmissionAt(h[i].approvals, first, d, h[i].directives[d].body)
                && forall k :: 0 <= k < |h[i].approvals| && h[i].approvals[k].directiveId == d ==> k == first
  {
    hide Starts, After, Shown, Journaled, ColumnsCopied, DirectivesOrdered, InAgreement, LinksStored, GateWords,
        UniqueCodes, UniqueLinks, Later, EqualFold;
    RunIsSound(h, es, except);
    assert Consistent(h[i]) && Indexed(h[i]) && Evidenced(h[i]);
    var s := h[i].approvals;
    assert EvidenceFor(s, d, h[i].directives[d]);
    assert forall k :: 0 <= k < |s| && s[k].directiveId == d ==>
        RecordOf(s, k, d, SubmittedStage) || RecordOf(s, k, d, ApprovedStage);
    if h[i].directives[d].status == Pending {
      var first :| SubmissionAt(s, first, d, h[i].directives[d].body);
    }
  }

  // ---- Order of the loaded list ----

  /** The clock does not run backwards: a request that read a state reads its clock no earlier than the
      requests that led to that state, and no request reads it before the records present at the start. */
  ghost predicate ClockMonotone(h: seq<DB>, es: seq<Event>)
    requires IsRun(h, es)
  {
    && (forall i, j :: 0 <= i < j < |es| && i < es[j].own ==> es[i].who.now <= es[j].who.now)
    && (forall k, j :: 0 <= k < |h[0].approvals| && 0 <= j < |es| ==> h[0].approvals[k].createdAt <= es[j].who.now)
  }

  ghost predicate Ascending(s: seq<Approval>) {
    forall a, b | 0 <= a < |s| && 0 <= b < |s| && s[a].directiveId == s[b].directiveId && s[a].stage == SubmittedStage
        && s[b].stage == ApprovedStage
      :: a < b && s[a].createdAt <= s[b].createdAt
  }

  /** Every record was there at the start or carries the clock of an earlier request. */
  ghost predicate StampedBy(h: seq<DB>, es: seq<Event>, n: nat)
    requires |h| == |es| + 1 && n < |h|
  {
    forall k :: 0 <= k < |h[n].approvals| ==>
      (k < |h[0].approvals| && h[n].approvals[k] == h[0].approvals[k])
      || (exists i :: 0 <= i < n && h[n].approvals[k].createdAt == es[i].who.now)
  }

  /** An appended record carries the request's clock, and an approval is only planned on a directive read as pending. */
  lemma PlannedApproval(call: Call, v: Views, who: Caller)
    requires Plan(call, v, who).Ok? && Plan(call, v, who).value.approval.Some?
    ensures var a := Plan(call, v, who).value.approval.value;
            && a.createdAt == who.now
            && (a.stage == ApprovedStage ==>
                Live(v.own.directives, a.directiveId) && v.own.directives[a.directiveId].status == Pending)
            && (a.stage == SubmittedStage ==>
                Live(v.own.directives, a.directiveId) && v.own.directives[a.directiveId].status == Draft)
  {
    hide LinkedDirective, LinkedGate, HasReceipt, EqualFold, BusinessFieldsMissing, GateUnfit, AuditEntry, RawEntry,
        MoveGate, GateBlocked, PayloadOf, Norm;
  }

  lemma AppendedApproval(h: seq<DB>, e: Event)
    requires InOrder(h, e)
    ensures After(h, e).approvals == Now(h).approvals
      || (Commits(h, e) && Planned(h, e).value.approval.Some?
          && After(h, e).approvals == Now(h).approvals + [Planned(h, e).value.approval.value])
  {
    hide Planned, Commit;
    if Commits(h, e) {
      CommitEffect(Now(h), Planned(h, e).value);
    }
  }

  lemma StampedMore(h: seq<DB>, es: seq<Event>, n: nat)
    requires |h| == |es| + 1 && 0 < n < |h| && StampedBy(h, es, n - 1)
    requires h[n].approvals == h[n - 1].approvals
        || (|h[n].approvals| == |h[n - 1].approvals| + 1 && h[n - 1].approvals <= h[n].approvals
            && h[n].approvals[|h[n].approvals| - 1].createdAt == es[n - 1].who.now)
    ensures StampedBy(h, es, n)
  {
  }

  lemma {:induction false} AllStamped(h: seq<DB>, es: seq<Event>, n: nat)
    requires IsRun(h, es) && n < |h|
    ensures StampedBy(h, es, n)
  {
    if n > 0 {
      hide After, Planned, Commits, Plan, StampedBy;
      AllStamped(h, es, n - 1);
      var g := Upto(h, n - 1);
      assert g[n - 1] == Now(g) == h[n - 1] && h[n] == After(g, es[n - 1]);
      AppendedApproval(g, es[n - 1]);
      if h[n].approvals != h[n - 1].approvals {
        CommitsPlans(g, es[n - 1]);
        PlannedAt(g, es[n - 1]);
      }
      StampedMore(h, es, n);
    } else {
      assert h[n] == h[0];
    }
  }

  lemma PlannedAt(h: seq<DB>, e: Event)
    requires InOrder(h, e) && Planned(h, e).Ok? && Planned(h, e).value.approval.Some?
    ensures var a := Planned(h, e).value.approval.value;
            && a.createdAt == e.who.now
            && (a.stage == ApprovedStage ==>
                Live(h[e.own].directives, a.directiveId) && h[e.own].directives[a.directiveId].status == Pending)
            && (a.stage == SubmittedStage ==>
                Live(h[e.own].directives, a.directiveId) && h[e.own].directives[a.directiveId].status == Draft)
  {
    hide Plan;
    PlannedApproval(e.call, ViewsAt(h, e), e.who);
  }

  lemma SubmissionOnDraft(db: DB, tx: Tx)
    requires Grounded(db, tx) && tx.approval.Some? && tx.approval.value.stage == SubmittedStage
    ensures tx.approval.value.directiveId in db.directives
        && db.directives[tx.approval.value.directiveId].status == Draft
  {
    hide ReceiptStep, Settles, Business, EqualFold;
  }

  /** A submission is only committed while no approval record exists. */
  lemma NothingApprovedYet(h: seq<DB>, e: Event)
    requires InOrder(h, e) && Commits(h, e) && Shown(h, e)
    requires Ordered(h) && DirectivesOrdered(h) && Consistent(Now(h))
    requires Planned(h, e).value.approval.Some? && Planned(h, e).value.approval.value.stage == SubmittedStage
    ensures forall k :: !RecordOf(Now(h).approvals, k, Planned(h, e).value.approval.value.directiveId, ApprovedStage)
  {
    hide Planned, Shown, Ordered, DirectivesOrdered, Grounded, LinksStored, InAgreement, GateWords, Commit, Signed;
    StepIsGrounded(h, e);
    SubmissionOnDraft(Now(h), Planned(h, e).value);
    var d := Planned(h, e).value.approval.value.directiveId;
    assert EvidenceFor(Now(h).approvals, d, Now(h).directives[d]);
  }

  /** The submission an approval builds on carries an earlier clock. */
  lemma SubmittedEarlier(h: seq<DB>, es: seq<Event>, except: set<Id>, m: nat, d: Id, x: nat)
    requires IsRun(h, es) && Honest(h, es) && Starts(h[0], except) && ClockMonotone(h, es) && m < |es| && es[m].own <= m
    requires d in h[es[m].own].directives && h[es[m].own].directives[d].status == Pending
    requires RecordOf(h[m].approvals, x, d, SubmittedStage)
    ensures h[m].approvals[x].createdAt <= es[m].who.now
  {
    hide IsRun, Starts, Shown, Honest, ClockMonotone, Journaled, ColumnsCopied, DirectivesOrdered, InAgreement,
        LinksStored, GateWords, Later, UniqueCodes, UniqueLinks;
    var own := es[m].own;
    assert |h| == |es| + 1 by { RunLength(h, es); }
    RunIsSound(h, es, except);
    assert Consistent(h[own]) && Indexed(h[m]);
    LogGrows(h, es, except, own, m);
    assert EvidenceFor(h[own].approvals, d, h[own].directives[d]);
    var p :| SubmissionAt(h[own].approvals, p, d, h[own].directives[d].body);
    assert p == x;
    StampBefore(h, es, own, m, p);
  }

  lemma StampBefore(h: seq<DB>, es: seq<Event>, own: nat, m: nat, p: nat)
    requires IsRun(h, es) && ClockMonotone(h, es) && m < |es| && own == es[m].own <= m && p < |h[own].approvals|
    ensures h[own].approvals[p].createdAt <= es[m].who.now
  {
    hide After;
    AllStamped(h, es, own);
  }

  /** A record about to be committed fits the order of those already there. */
  lemma NewRecordFits(h: seq<DB>, es: seq<Event>, except: set<Id>, m: nat, a: Approval)
    requires IsRun(h, es) && Honest(h, es) && Starts(h[0], except) && ClockMonotone(h, es) && m < |es|
    requires Commits(Upto(h, m), es[m]) && Planned(Upto(h, m), es[m]).value.approval == Some(a)
    ensures a.stage == ApprovedStage ==> forall x :: RecordOf(h[m].approvals, x, a.directiveId, SubmittedStage) ==>
        h[m].approvals[x].createdAt <= a.createdAt
    ensures a.stage == SubmittedStage ==> forall x :: !RecordOf(h[m].approvals, x, a.directiveId, ApprovedStage)
  {
    hide After, Planned, Commits, Starts, ClockMonotone, DirectivesOrdered, Ordered, Consistent;
    var g, e, s := Upto(h, m), es[m], h[m].approvals;
    assert Now(g) == h[m] && InOrder(g, e) && Shown(g, e);
    hide Shown;
    CommitsPlans(g, e);
    PlannedAt(g, e);
    if a.stage == ApprovedStage {
      assert g[e.own] == h[e.own];
      forall x | RecordOf(s, x, a.directiveId, SubmittedStage)
        ensures s[x].createdAt <= a.createdAt
      {
        SubmittedEarlier(h, es, except, m, a.directiveId, x);
      }
    } else {
      PrefixSound(h, es, except, m);
      SoundNow(g, except);
      NothingApprovedYet(g, e);
    }
  }

  lemma StepAscends(h: seq<DB>, es: seq<Event>, except: set<Id>, m: nat)
    requires IsRun(h, es) && Honest(h, es) && Starts(h[0], except) && ClockMonotone(h, es) && m < |es|
    requires Ascending(h[m].approvals)
    ensures Ascending(h[m + 1].approvals)
  {
    hide After, Planned, Commits, Starts, Honest, Ascending, ClockMonotone, RecordOf;
    var e, g := es[m], Upto(h, m);
    assert Now(g) == h[m] && h[m + 1] == After(g, e);
    AppendedApproval(g, e);
    if h[m + 1].approvals != h[m].approvals {
      CommitsPlans(g, e);
      var a := Planned(g, e).value.approval.value;
      NewRecordFits(h, es, except, m, a);
      AppendAscends(h[m].approvals, a);
    }
  }

  /** A directive's submission record precedes its approval record and carries no later time. */
  lemma {:induction false} RecordsAscend(h: seq<DB>, es: seq<Event>, except: set<Id>, n: nat)
    requires IsRun(h, es) && Honest(h, es) && Starts(h[0], except) && ClockMonotone(h, es) && n < |h|
    requires Ascending(h[0].approvals)
    ensures Ascending(h[n].approvals)
  {
    hide Starts, Honest, Ascending, ClockMonotone, After;
    if n > 0 {
      RecordsAscend(h, es, except, n - 1);
      StepAscends(h, es, except, n - 1);
    }
  }

  lemma SoundNow(h: seq<DB>, except: set<Id>)
    requires h != [] && Sound(h, except)
    ensures Ordered(h) && DirectivesOrdered(h) && Consistent(Now(h))
  {
  }

  lemma AppendAscends(s: seq<Approval>, a: Approval)
    requires Ascending(s)
    requires a.stage == ApprovedStage ==> forall x :: RecordOf(s, x, a.directiveId, SubmittedStage) ==>
        s[x].createdAt <= a.createdAt
    requires a.stage == SubmittedStage ==> forall x :: !RecordOf(s, x, a.directiveId, ApprovedStage)
    ensures Ascending(s + [a])
  {
    var t := s + [a];
    forall x, y | 0 <= x < |t| && 0 <= y < |t| && t[x].directiveId == t[y].directiveId && t[x].stage == SubmittedStage
        && t[y].stage == ApprovedStage
      ensures x < y && t[x].createdAt <= t[y].createdAt
    {
      if y == |s| {
        assert RecordOf(s, x, a.directiveId, SubmittedStage);
      } else if x == |s| {
        assert RecordOf(s, y, a.directiveId, ApprovedStage);
      }
    }
  }

  /** Whatever the clocks said: the trail of an approved, executing or completed directive is its submission followed by
      its approval exactly when the submission's time is earlier, or the same with the smaller key; otherwise it is
      loaded the other way round. */
  lemma TrailInOrderIff(h: seq<DB>, es: seq<Event>, except: set<Id>, i: nat, d: Id) returns (first: nat, second: nat)
    requires IsRun(h, es) && Honest(h, es) && Starts(h[0], except)
    requires i < |h| && d in h[i].directives && Approvable(h[i].directives[d].status)
    ensures var s, b := h[i].approvals, h[i].directives[d].body;
            && SubmissionAt(s, first, d, b) && ApprovalAt(s, second, d, b) && first != second
            && LoadedTrail(s, d) == if Earlier(s, first, second) then [s[first], s[second]] else [s[second], s[first]]
  {
    hide IsRun, Honest, Starts, EqualFold, LoadedTrail;
    first, second := TwoPersonEvidence(h, es, except, i, d);
    TwoLoaded(h[i].approvals, d, first, second);
  }

  /** With a clock that does not run backwards, the trail is the submission followed by the approval. */
  lemma LoadedInOrder(h: seq<DB>, es: seq<Event>, except: set<Id>, i: nat, d: Id)
    requires IsRun(h, es) && Honest(h, es) && Starts(h[0], except) && ClockMonotone(h, es) && Ascending(h[0].approvals)
    requires i < |h| && d in h[i].directives && Approvable(h[i].directives[d].status)
    ensures var list := LoadedTrail(h[i].approvals, d);
            && |list| == 2 && list[0].createdAt <= list[1].createdAt
            && SubmissionAt(list, 0, d, h[i].directives[d].body) && ApprovalAt(list, 1, d, h[i].directives[d].body)
  {
    hide IsRun, Honest, Starts, ClockMonotone, EqualFold, LoadedTrail;
    var first, second := TrailInOrderIff(h, es, except, i, d);
    RecordsAscend(h, es, except, i);
  }

  // ---- Who approved ----

  /** A planned approval records the acting account whatever it is: the approver is named exactly when the actor is. */
  lemma ApproverNamedIff(id: Id, current: Option<Row<Directive>>, gate: Option<Keyed<Gate>>, expected: nat, who: Caller)
    requires PlanDirectiveTransition(id, current, gate, expected, Approved, who).Ok?
    ensures var tx := PlanDirectiveTransition(id, current, gate, expected, Approved, who).value;
            && (tx.directive.change.row.body.approvedBy != "" <==> who.actor != "")
            && tx.approval.Some? && (tx.approval.value.actor != "" <==> who.actor != "")
  {
    hide EqualFold;
  }

  /** An unnamed actor in the reviewer role passes the two-person check. Only a direct call of the service has one: the
      authentication in front of it refuses an empty user name. */
  lemma UnnamedApproverPasses(id: Id, d: Row<Directive>, expected: nat, who: Caller)
    requires d.status == Pending && d.body.submittedBy != "" && who.actor == "" && who.role == Reviewer
    ensures PlanDirectiveTransition(id, Some(d), None, expected, Approved, who).Ok?
  {
    assert |ToUpper(d.body.submittedBy)| != |ToUpper("")|;
  }

  ghost predicate AllNamed(s: seq<Approval>) {
    forall k :: 0 <= k < |s| ==> s[k].actor != ""
  }

  lemma PlannedActor(call: Call, v: Views, who: Caller)
    requires Plan(call, v, who).Ok? && Plan(call, v, who).value.approval.Some?
    ensures Plan(call, v, who).value.approval.value.actor == who.actor
  {
    hide LinkedDirective, LinkedGate, HasReceipt, EqualFold, BusinessFieldsMissing, GateUnfit, AuditEntry, RawEntry,
        MoveGate, GateBlocked, PayloadOf, Norm;
  }

  lemma NamedMore(s: seq<Approval>, t: seq<Approval>)
    requires AllNamed(s) && |t| == |s| + 1 && s == t[..|s|] && t[|s|].actor != ""
    ensures AllNamed(t)
  {
    assert forall k :: 0 <= k < |s| ==> t[k] == s[k];
  }

  lemma {:induction false} RecordsNamed(h: seq<DB>, es: seq<Event>, n: nat)
    requires IsRun(h, es) && n < |h| && AllNamed(h[0].approvals)
    requires forall i :: 0 <= i < |es| ==> es[i].who.actor != ""
    ensures AllNamed(h[n].approvals)
  {
    if n > 0 {
      hide After, Planned, Commits, Plan, AllNamed;
      RecordsNamed(h, es, n - 1);
      var g, e := Upto(h, n - 1), es[n - 1];
      assert Now(g) == h[n - 1] && h[n] == After(g, e);
      AppendedApproval(g, e);
      if h[n].approvals != h[n - 1].approvals {
        CommitsPlans(g, e);
        ActorAt(g, e);
        NamedMore(h[n - 1].approvals, h[n].approvals);
      }
    }
  }

  lemma ActorAt(h: seq<DB>, e: Event)
    requires InOrder(h, e) && Planned(h, e).Ok? && Planned(h, e).value.approval.Some?
    ensures Planned(h, e).value.approval.value.actor == e.who.actor
  {
    hide Plan;
    PlannedActor(e.call, ViewsAt(h, e), e.who);
  }

  /** With authenticated actors, both signatures of an approved, executing or completed directive are
      non-empty and differ under case folding. */
  lemma BothSignersNamed(h: seq<DB>, es: seq<Event>, except: set<Id>, i: nat, d: Id)
    requires IsRun(h, es) && Honest(h, es) && Starts(h[0], except) && i < |h| && AllNamed(h[0].approvals)
    requires forall k :: 0 <= k < |es| ==> es[k].who.actor != ""
    requires d in h[i].directives && Approvable(h[i].directives[d].status)
    ensures var b := h[i].directives[d].body;
            b.submittedBy != "" && b.approvedBy != "" && !SameLetters(b.submittedBy, b.approvedBy)
  {
    hide IsRun, Honest, Starts, EqualFold;
    var first, second := TwoPersonEvidence(h, es, except, i, d);
    RecordsNamed(h, es, i);
  }
}
