/** Service calls among other sessions' requests: the history they share is a run, and all invariants hold of it. */
module Sessions {
  import opened Prelude
  import opened Model
  import opened Transactions
  import opened Protocol
  import opened Store
  import opened Serving
  import opened Reachability

  /** State `p` is what a request of an honest client made of the states before it. */
  ghost predicate Lawful(h: seq<DB>, p: nat)
    requires 0 < p < |h|
  {
    exists e: Event :: Makes(h, p, e)
  }

  ghost predicate Makes(h: seq<DB>, p: nat, e: Event)
    requires 0 < p < |h|
  {
    var past := Upto(h, p - 1);
    InOrder(past, e) && Shown(past, e) && h[p] == After(past, e)
  }

  /** The transaction that other sessions committed as state `p` was planned by a request of an honest client. */
  ghost predicate PlannedBySomeone(h: seq<DB>, p: nat, tx: Tx)
    requires 0 < p < |h|
  {
    var past := Upto(h, p - 1);
    exists e: Event :: InOrder(past, e) && Shown(past, e) && !e.fault && Planned(past, e) == Ok(tx)
  }

  /** Whatever the other sessions' script led to was asked for by requests of the protocol. */
  ghost predicate ScriptedByRequests(h: seq<DB>, script: seq<seq<Tx>>) {
    forall p, b, t ::
      0 < p < |h| && 0 <= b < |script| && 0 <= t < |script[b]| && Commit(h[p - 1], script[b][t]) == Ok(h[p]) ==>
        PlannedBySomeone(h, p, script[b][t])
  }

  lemma {:induction false} LawfulIsRun(h: seq<DB>) returns (es: seq<Event>)
    requires h != [] && forall p :: 0 < p < |h| ==> Lawful(h, p)
    ensures IsRun(h, es) && Honest(h, es)
  {
    hide After, Shown, InOrder;
    var n := |h| - 1;
    if n == 0 {
      es := [];
    } else {
      var g := h[..n];
      forall p | 0 < p < |g|
        ensures Lawful(g, p)
      {
        assert Lawful(h, p) && Upto(g, p - 1) == Upto(h, p - 1);
        var e: Event :| Makes(h, p, e);
        assert Makes(g, p, e);
      }
      var before := LawfulIsRun(g);
      assert Lawful(h, n) && Upto(h, n - 1) == g;
      var last: Event :| Makes(h, n, last);
      es := before + [last];
      ExtendRun(g, before, last, h[n]);
      assert g + [h[n]] == h;
    }
  }

  lemma ExtendRun(h: seq<DB>, es: seq<Event>, e: Event, next: DB)
    requires h != [] && IsRun(h, es) && Honest(h, es)
    requires InOrder(h, e) && Shown(h, e) && next == After(h, e)
    ensures IsRun(h + [next], es + [e]) && Honest(h + [next], es + [e])
  {
    hide After, Shown, InOrder;
    var k, fs := h + [next], es + [e];
    forall i | 0 <= i < |fs|
      ensures InOrder(Upto(k, i), fs[i]) && k[i + 1] == After(Upto(k, i), fs[i]) && Shown(Upto(k, i), fs[i])
    {
      if i < |es| {
        assert Upto(k, i) == Upto(h, i) && fs[i] == es[i];
        assert Shown(Upto(h, i), es[i]);
      } else {
        assert Upto(k, i) == h;
      }
    }
  }

  /** What other sessions committed is lawful when their script was made of requests. */
  lemma ScriptedIsLawful(h: seq<DB>, p: nat, script: seq<seq<Tx>>)
    requires 0 < p < |h| && Scripted(h, p, script) && ScriptedByRequests(h, script)
    ensures Lawful(h, p)
  {
    hide Commit, Shown, Planned;
    var b, t :| 0 <= b < |script| && 0 <= t < |script[b]| && Commit(h[p - 1], script[b][t]) == Ok(h[p]);
    assert PlannedBySomeone(h, p, script[b][t]);
    var past := Upto(h, p - 1);
    var e: Event :| InOrder(past, e) && Shown(past, e) && !e.fault && Planned(past, e) == Ok(script[b][t]);
    CommittedAsPlanned(past, e, script[b][t], h[p]);
    assert Makes(h, p, e);
  }

  lemma CommittedAsPlanned(h: seq<DB>, e: Event, tx: Tx, next: DB)
    requires InOrder(h, e) && !e.fault && Planned(h, e) == Ok(tx) && Commit(Now(h), tx) == Ok(next)
    ensures After(h, e) == next
  {
    hide Planned, Commit;
  }

  /** The state a served call committed is lawful when its client was shown the version it sent. */
  lemma OwnIsLawful(h: seq<DB>, start: nat, e: Event, at: nat)
    requires Served(h, start, e, at) && Shown(Upto(h, at), e) && Commits(Upto(h, at), e)
    ensures Lawful(h, at + 1)
  {
    hide After, Commits, Shown;
    assert Makes(h, at + 1, e);
  }

  /** A service call among other sessions: where everything committed before it was lawful and the other sessions'
      script is made of requests, the whole history is a run of honest clients, and sound. */
  lemma CallsKeepRunsSound(db: Database, past: seq<DB>, mine: set<nat>, e: Event, at: nat, except: set<Id>)
      returns (es: seq<Event>)
    requires Handled(db, past, mine, e, at) && Shown(Upto(db.history, at), e)
    requires past != [] && forall p :: 0 < p < |past| ==> Lawful(past, p)
    requires forall p :: p in mine ==> p < |past|
    requires ScriptedByRequests(db.history, db.script)
    requires Starts(past[0], except)
    ensures forall p :: 0 < p < |db.history| ==> Lawful(db.history, p)
    ensures IsRun(db.history, es) && Honest(db.history, es) && Sound(db.history, except)
  {
    hide Commits, After, Shown, Starts, Sound, ScriptedByRequests, Scripted, Indexed, IsRun, Honest;
    var h := db.history;
    forall p | 0 < p < |h|
      ensures Lawful(h, p)
    {
      if p < |past| {
        assert Lawful(past, p) && Upto(h, p - 1) == Upto(past, p - 1);
        var f: Event :| Makes(past, p, f);
        assert Makes(h, p, f);
      } else if p in db.own {
        OwnIsLawful(h, |past|, e, at);
      } else {
        ScriptedIsLawful(h, p, db.script);
      }
    }
    es := LawfulIsRun(h);
    RunIsSound(h, es, except);
  }
}
