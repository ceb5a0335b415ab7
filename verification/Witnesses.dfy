/** Where runs start, and concrete runs that show which hypotheses are needed. */
module Witnesses {
  import opened Prelude
  import opened Text
  import opened Status
  import opened Model
  import opened Transactions
  import opened Planning
  import opened Protocol
  import opened Grounding
  import opened Agreement
  import opened Evidence
  import opened Journal
  import opened Reachability
  import opened Validity
  import opened GateRaces

  const EMPTY_DATABASE := DB(map[], map[], map[], [], [])

  lemma EmptyStarts()
    ensures Starts(EMPTY_DATABASE, {})
  {
  }

  // ---- Seed rows; descriptions, evidence, metrics and dates are one opaque value ----

  const TEAM_1 := "运行一组"
  const TEAM_2 := "质量复核组"
  const TEAM_3 := "安全主管组"

  const TEXT_GU1 := Payload("闸门示例一", TEAM_1, "seed")
  const TEXT_GU2 := Payload("闸门示例二", TEAM_2, "seed")
  const TEXT_GU3 := Payload("闸门示例三", TEAM_3, "seed")
  const TEXT_OD1 := Payload("操作指令示例一", TEAM_1, "seed")
  const TEXT_OD2 := Payload("操作指令示例二", TEAM_2, "seed")
  const TEXT_OD3 := Payload("右岸泄洪闸开启指令", TEAM_3, "seed")
  const TEXT_EC1 := Payload("右岸泄洪闸现场执行回执", TEAM_1, "seed")

  const AREA_1 := "水电站闸门调度许可区域1"
  const AREA_2 := "水电站闸门调度许可区域2"
  const AREA_3 := "水电站闸门调度许可区域3"

  const SEED_GATES: Table<Gate> := map[
    1 := Row("GU-001", Open, 1, false, Gate(AREA_1, "常规", "low", "R-001", TEXT_GU1)),
    2 := Row("GU-002", Closed, 1, false, Gate(AREA_2, "重点", "medium", "R-002", TEXT_GU2)),
    3 := Row("GU-003", Moving, 1, false, Gate(AREA_3, "复核", "high", "R-003", TEXT_GU3))]

  const SEED_DIRECTIVES: Table<Directive> := map[
    1 := Row("OD-001", Draft, 1, false,
             Directive(AREA_1, "常规", "low", "GU-001", Open, TEXT_OD1, "", None, "", None)),
    2 := Row("OD-002", Pending, 1, false,
             Directive(AREA_2, "重点", "medium", "GU-002", Closed, TEXT_OD2, "operator", Some(-120), "", None)),
    3 := Row("OD-003", Executing, 1, false,
             Directive(AREA_3, "复核", "high", "GU-003", Open, TEXT_OD3, "operator", Some(-120), "reviewer", Some(-60)))]

  const SEED_APPROVALS := [
    Approval(2, SubmittedStage, "operator", Operator, "seed-od-002-submit", Draft, Pending, -120),
    Approval(3, SubmittedStage, "operator", Operator, "seed-od-003-submit", Draft, Pending, -120),
    Approval(3, ApprovedStage, "reviewer", Reviewer, "seed-od-003-approve", Pending, Approved, -60)]

  const SEED_RECEIPTS: Table<Receipt> := map[
    1 := Row("EC-001", Pending, 1, false,
             Receipt(AREA_3, "泄洪调度", "high", "OD-003", TEXT_EC1, "", None))]

  const SEED_DATABASE := DB(SEED_GATES, SEED_DIRECTIVES, SEED_RECEIPTS, SEED_APPROVALS, [])

  lemma SolidIsNormal(s: string)
    requires Trimmed(s) && forall i :: 0 <= i < |s| ==> !('a' <= s[i] <= 'z')
    ensures Norm(s) == s
  {
    assert ToUpper(s) == s;
  }

  lemma SeedGateCodes()
    ensures UniqueCodes(SEED_GATES)
  {
    hide AREA_1, AREA_2, AREA_3, TEXT_GU1, TEXT_GU2, TEXT_GU3, TEXT_OD1, TEXT_OD2, TEXT_OD3, TEXT_EC1;
    assert "GU-001"[5] != "GU-002"[5] && "GU-001"[5] != "GU-003"[5] && "GU-002"[5] != "GU-003"[5];
  }

  lemma SeedDirectiveCodes()
    ensures UniqueCodes(SEED_DIRECTIVES)
  {
    hide AREA_1, AREA_2, AREA_3, TEXT_GU1, TEXT_GU2, TEXT_GU3, TEXT_OD1, TEXT_OD2, TEXT_OD3, TEXT_EC1;
    assert "OD-001"[5] != "OD-002"[5] && "OD-001"[5] != "OD-003"[5] && "OD-002"[5] != "OD-003"[5];
  }

  lemma SeedIndexed()
    ensures Indexed(SEED_DATABASE)
  {
    hide AREA_1, AREA_2, AREA_3, TEXT_GU1, TEXT_GU2, TEXT_GU3, TEXT_OD1, TEXT_OD2, TEXT_OD3, TEXT_EC1, SEED_GATES,
        SEED_DIRECTIVES;
    SeedGateCodes();
    SeedDirectiveCodes();
  }

  lemma SeedCodesNormal()
    ensures forall d :: d in SEED_DIRECTIVES ==> Norm(SEED_DIRECTIVES[d].code) == SEED_DIRECTIVES[d].code
  {
    hide Norm, AREA_1, AREA_2, AREA_3, TEXT_GU1, TEXT_GU2, TEXT_GU3, TEXT_OD1, TEXT_OD2, TEXT_OD3, TEXT_EC1;
    SolidIsNormal("OD-001");
    SolidIsNormal("OD-002");
    SolidIsNormal("OD-003");
  }

  lemma SeedPair(r: Id, d: Id)
    requires Linked(SEED_DATABASE, r, d)
    ensures r == 1 && d == 3
  {
    hide Norm, AREA_1, AREA_2, AREA_3, TEXT_GU1, TEXT_GU2, TEXT_GU3, TEXT_OD1, TEXT_OD2, TEXT_OD3, TEXT_EC1;
    assert "OD-001"[5] != "OD-003"[5] && "OD-002"[5] != "OD-003"[5];
  }

  lemma SeedLinks()
    ensures LinksStored(SEED_DATABASE)
  {
    hide Norm, AREA_1, AREA_2, AREA_3, TEXT_GU1, TEXT_GU2, TEXT_GU3, TEXT_OD1, TEXT_OD2, TEXT_OD3, TEXT_EC1;
    SeedCodesNormal();
    assert Linked(SEED_DATABASE, 1, 3);
    hide Linked;
  }

  lemma SeedAgrees()
    ensures InAgreement(SEED_DATABASE) && GateWords(SEED_DATABASE)
  {
    hide Linked, AREA_1, AREA_2, AREA_3, TEXT_GU1, TEXT_GU2, TEXT_GU3, TEXT_OD1, TEXT_OD2, TEXT_OD3, TEXT_EC1;
    forall r, d | Linked(SEED_DATABASE, r, d)
      ensures r == 1 && d == 3
    {
      SeedPair(r, d);
    }
  }

  lemma SeedSigned(d: Id)
    requires d in SEED_DIRECTIVES
    ensures EvidenceFor(SEED_APPROVALS, d, SEED_DIRECTIVES[d])
  {
    hide AREA_1, AREA_2, AREA_3, TEXT_GU1, TEXT_GU2, TEXT_GU3, TEXT_OD1, TEXT_OD2, TEXT_OD3, TEXT_EC1, EqualFold;
    var s, rows := SEED_APPROVALS, SEED_DIRECTIVES;
    assert SubmissionAt(s, 0, 2, rows[2].body) && SubmissionAt(s, 1, 3, rows[3].body)
        && ApprovalAt(s, 2, 3, rows[3].body);
    SeedAccounts();
  }

  lemma SeedAccounts()
    ensures !EqualFold("operator", "reviewer") && "operator" != ""
  {
    assert ToUpper("operator")[0] != ToUpper("reviewer")[0];
  }

  lemma SeedEvidenced()
    ensures Evidenced(SEED_DATABASE)
  {
    hide EvidenceFor, AREA_1, AREA_2, AREA_3, TEXT_GU1, TEXT_GU2, TEXT_GU3, TEXT_OD1, TEXT_OD2, TEXT_OD3, TEXT_EC1;
    forall d | d in SEED_DIRECTIVES
      ensures EvidenceFor(SEED_APPROVALS, d, SEED_DIRECTIVES[d])
    {
      SeedSigned(d);
    }
  }

  /** The seeded database is a proper start, except that its receipt's category is not its directive's. */
  lemma SeedStarts()
    ensures Starts(SEED_DATABASE, {1}) && !ColumnsCopied(SEED_DATABASE, {})
  {
    SeedIndexed();
    SeedLinks();
    SeedAgrees();
    SeedEvidenced();
    hide Indexed, LinksStored, InAgreement, Evidenced, GateWords;
    assert Linked(SEED_DATABASE, 1, 3) && "泄洪调度"[0] != "复核"[0];
    forall r, d | Linked(SEED_DATABASE, r, d)
      ensures r == 1
    {
      SeedPair(r, d);
    }
  }

  lemma SolidNotBlank(s: string)
    requires s != [] && Trimmed(s)
    ensures !Blankish(s)
  {
  }

  lemma SeedTextFilled()
    ensures forall t :: t in {TEXT_GU1, TEXT_GU2, TEXT_GU3, TEXT_OD1, TEXT_OD2, TEXT_OD3, TEXT_EC1} ==>
        !Blankish(t.name) && !Blankish(t.owner)
    ensures forall a :: a in {AREA_1, AREA_2, AREA_3} ==> !Blankish(a)
  {
    hide Blankish;
    var words := [AREA_1, AREA_2, AREA_3, TEAM_1, TEAM_2, TEAM_3, TEXT_GU1.name, TEXT_GU2.name, TEXT_GU3.name,
        TEXT_OD1.name, TEXT_OD2.name, TEXT_OD3.name, TEXT_EC1.name];
    forall k | 0 <= k < |words|
      ensures !Blankish(words[k])
    {
      SolidNotBlank(words[k]);
    }
    assert !Blankish(words[0]) && !Blankish(words[1]) && !Blankish(words[2]) && !Blankish(words[3])
        && !Blankish(words[4]) && !Blankish(words[5]);
    assert !Blankish(words[6]) && !Blankish(words[7]) && !Blankish(words[8]) && !Blankish(words[9])
        && !Blankish(words[10]) && !Blankish(words[11]) && !Blankish(words[12]);
  }

  lemma SeedGatesFilled()
    ensures forall id :: id in SEED_GATES ==> GateFilled(SEED_GATES[id])
  {
    hide Blankish, AREA_1, AREA_2, AREA_3, TEXT_GU1, TEXT_GU2, TEXT_GU3, TEXT_OD1, TEXT_OD2, TEXT_OD3, TEXT_EC1;
    SeedTextFilled();
    SolidNotBlank("GU-001");
    SolidNotBlank("GU-002");
    SolidNotBlank("GU-003");
  }

  lemma SeedDirectivesFilled()
    ensures forall id :: id in SEED_DIRECTIVES ==> DirectiveFilled(SEED_DIRECTIVES[id])
  {
    hide Blankish, AREA_1, AREA_2, AREA_3, TEXT_GU1, TEXT_GU2, TEXT_GU3, TEXT_OD1, TEXT_OD2, TEXT_OD3, TEXT_EC1;
    SeedTextFilled();
    SolidNotBlank("OD-001");
    SolidNotBlank("OD-002");
    SolidNotBlank("OD-003");
  }

  lemma SeedReceiptsFilled()
    ensures forall id :: id in SEED_RECEIPTS ==> ReceiptFilled(SEED_RECEIPTS[id])
  {
    hide Blankish, AREA_1, AREA_2, AREA_3, TEXT_GU1, TEXT_GU2, TEXT_GU3, TEXT_OD1, TEXT_OD2, TEXT_OD3, TEXT_EC1;
    SeedTextFilled();
    SolidNotBlank("EC-001");
  }

  /** The seeded rows have their required columns. */
  lemma SeedFilled()
    ensures Filled(SEED_DATABASE)
  {
    hide GateFilled, DirectiveFilled, ReceiptFilled, AREA_1, AREA_2, AREA_3, TEXT_GU1, TEXT_GU2, TEXT_GU3, TEXT_OD1,
        TEXT_OD2, TEXT_OD3, TEXT_EC1;
    SeedGatesFilled();
    SeedDirectivesFilled();
    SeedReceiptsFilled();
  }

  /** And their signature times. */
  lemma SeedStamped()
    ensures Stamped(SEED_DATABASE)
  {
    hide AREA_1, AREA_2, AREA_3, TEXT_GU1, TEXT_GU2, TEXT_GU3, TEXT_OD1, TEXT_OD2, TEXT_OD3, TEXT_EC1;
  }

  // ---- Two-request runs ----

  /** A request that did all its reads in the first state of the run. */
  function AtStart(call: Call, role: Role, actor: string): Event {
    Event(call, Caller(actor, role, "r", 0, Clocks(0, 0, 0)), 0, 0, 0, 0, false)
  }

  const SOME_GATE := Gate("F", "", "", "R", Payload("n", "o", ""))

  function OneGate(s: Status): DB {
    EMPTY_DATABASE.(gates := map[1 := Row("G", s, 1, false, SOME_GATE)])
  }

  lemma OneGateStarts(s: Status)
    requires GateWord(s)
    ensures Starts(OneGate(s), {})
  {
  }

  /** A version that was guessed, not shown, defeats the lock: a gate goes from closed to open without moving. */
  lemma UnshownVersionOpensClosedGate() returns (h: seq<DB>, es: seq<Event>)
    ensures IsRun(h, es) && |h| == 3 && Starts(h[0], {}) && !Honest(h, es)
    ensures 1 in h[1].gates && h[1].gates[1].status == Closed
    ensures 1 in h[2].gates && h[2].gates[1].status == Open
    ensures !Journaled(h[0], h[2])
  {
    var a := OneGate(Moving);
    OneGateStarts(Moving);
    var e, f := AtStart(GateTransition(1, 1, Closed), Operator, "x"),
        AtStart(GateTransition(1, 2, Open), Operator, "y");
    hide After, Journaled, Starts;
    LandsOn([a], e, 1, 1, Closed);
    var b := After([a], e);
    LandsOn([a, b], f, 1, 2, Open);
    h, es := TwoSteps(a, e, f), [e, f];
    TwoStepsIsRun(a, e, f);
    assert Upto(h, 1) == [a, b] && es[1] == f;
    assert !Shown(Upto(h, 1), es[1]);
    JournalLost(a, b, h[2], e.who, f.who);
  }

  lemma JournalLost(a: DB, b: DB, c: DB, x: Caller, y: Caller)
    requires a == OneGate(Moving) && b.audits == [RawEntry(x, GateUnit, 1, Moving, Closed)]
    requires c.audits == b.audits + [RawEntry(y, GateUnit, 1, Moving, Open)]
    ensures !Journaled(a, c)
  {
    var log := c.audits;
    assert log[|a.audits|..] == log && log[..1] == b.audits && b.audits[..0] == [];
    var start := TrackOf(a.gates, 1);
    assert Replay(GateUnit, 1, start, []) == start;
    assert Replay(GateUnit, 1, start, b.audits) == At(Closed, 2, false);
    assert Replay(GateUnit, 1, start, log) == Broken;
  }

  function SomeDirective(s: Status, signers: (string, string), version: nat): Row<Directive> {
    Row("D", s, version, false, Directive("F", "", "", "G", Open, Payload("n", "o", ""), signers.0, None, signers.1,
        None))
  }

  const DRAFT_ONLY := EMPTY_DATABASE.(directives := map[1 := SomeDirective(Draft, ("", ""), 1)])

  lemma DraftOnlyStarts()
    ensures Starts(DRAFT_ONLY, {})
  {
    SolidIsNormal("D");
    hide Norm;
  }

  lemma SubmitStep(h: seq<DB>, e: Event)
    requires InOrder(h, e) && e.call == DirectiveTransition(1, 1, Pending) && !e.fault && e.who.role == Operator
    requires h[e.own] == DRAFT_ONLY && Now(h) == DRAFT_ONLY
    ensures 1 in After(h, e).directives && !After(h, e).directives[1].deleted
        && After(h, e).directives[1].status == Pending
  {
    hide LinkedGate, EqualFold;
  }

  lemma DeleteStepAnyStatus(h: seq<DB>, e: Event)
    requires InOrder(h, e) && e.call == DirectiveDelete(1) && !e.fault
    requires h[e.own] == DRAFT_ONLY && Live(Now(h).directives, 1)
    ensures After(h, e).directives == Now(h).directives[1 := Now(h).directives[1].(deleted := true)]
  {
  }

  /** Delete compares no version: a directive submitted after the draft check is deleted while pending. */
  lemma DeleteReachesPendingDirective() returns (h: seq<DB>, es: seq<Event>)
    ensures IsRun(h, es) && |h| == 3 && Starts(h[0], {}) && Honest(h, es)
    ensures 1 in h[2].directives && h[2].directives[1].deleted && h[2].directives[1].status == Pending
  {
    DraftOnlyStarts();
    var e, f := AtStart(DirectiveTransition(1, 1, Pending), Operator, "a"), AtStart(DirectiveDelete(1), Admin, "b");
    hide After, Starts, Honest, IsRun;
    SubmitStep([DRAFT_ONLY], e);
    var b := After([DRAFT_ONLY], e);
    DeleteStepAnyStatus([DRAFT_ONLY, b], f);
    h, es := TwoSteps(DRAFT_ONLY, e, f), [e, f];
    TwoStepsHonest(DRAFT_ONLY, e, f);
  }

  const TWO_APPROVALS := [
    Approval(1, SubmittedStage, "a", Operator, "r", Draft, Pending, 0),
    Approval(1, ApprovedStage, "b", Reviewer, "r", Pending, Approved, 0)]

  /** An approved directive whose gate already stands where the directive wants it. */
  const AT_TARGET := OneGate(Open).(directives := map[1 := SomeDirective(Approved, ("a", "b"), 3)], approvals :=
      TWO_APPROVALS)

  lemma AtTargetEvidenced()
    ensures Evidenced(AT_TARGET)
  {
    hide Norm;
    assert ToUpper("a")[0] != ToUpper("b")[0];
    var d := AT_TARGET.directives[1];
    assert SubmissionAt(TWO_APPROVALS, 0, 1, d.body) && ApprovalAt(TWO_APPROVALS, 1, 1, d.body);
  }

  lemma AtTargetStarts()
    ensures Starts(AT_TARGET, {})
    ensures 1 in AT_TARGET.gates && 1 in AT_TARGET.directives
        && AT_TARGET.gates[1].status == AT_TARGET.directives[1].body.gateState
  {
    hide Norm, Evidenced;
    SolidIsNormal("D");
    AtTargetEvidenced();
  }

  lemma StartPlan(who: Caller)
    requires who.role == Operator
    ensures PlanDirectiveTransition(1, Some(AT_TARGET.directives[1]), Some(Keyed(1, AT_TARGET.gates[1])), 3, Executing,
        who)
         == Ok(NO_WRITES.(directive := Rewrite(1, 3, AT_TARGET.directives[1].(status := Executing),
             RawEntry(who, OperationDirective, 1, Approved, Executing))))
  {
    hide RawEntry;
  }

  lemma AtTargetGate()
    ensures LinkedGate(AT_TARGET, "G") == Some(Keyed(1, AT_TARGET.gates[1]))
  {
    SolidIsNormal("G");
    hide Norm;
    assert CarriesCode(AT_TARGET.gates, 1, "G");
  }

  lemma AtTargetCanStart(who: Caller)
    requires who.role == Operator
    ensures CanMove(AT_TARGET, 1, AT_TARGET.directives[1], Keyed(1, AT_TARGET.gates[1]), Executing, who)
  {
    hide Norm, FindByCode, PlanDirectiveTransition;
    StartPlan(who);
    AtTargetGate();
  }

  /** A gate that is only looked at is not guarded: a directive starts on a gate locked in the meantime. */
  lemma StartsOnLockedGate() returns (h: seq<DB>, es: seq<Event>)
    ensures IsRun(h, es) && |h| == 3 && Starts(h[0], {}) && Honest(h, es)
    ensures 1 in h[2].directives && h[2].directives[1].status == Executing
    ensures 1 in h[2].gates && h[2].gates[1].status == Locked
  {
    hide AT_TARGET, CanMove, IsRun, Honest;
    AtTargetStarts();
    var who := Caller("a", Operator, "r", 0, Clocks(0, 0, 0));
    AtTargetCanStart(who);
    h, es := MovedUnderTransition(AT_TARGET, 1, AT_TARGET.directives[1], Keyed(1, AT_TARGET.gates[1]), Executing, who);
  }
}
