/** What a service method promises: that its call was one request of the protocol, served among the
    commits of other sessions, and that it answered with the outcome of that request. */
module Serving {
  import opened Prelude
  import opened Model
  import opened Transactions
  import opened Protocol
  import opened Store

  /** The request read and ran its transaction at the named positions of the history, which the call found
      at length `start`; if it commits, the next state is the one the protocol prescribes. */
  ghost predicate Served(h: seq<DB>, start: nat, e: Event, at: nat) {
    && start <= e.own + 1
    && at < |h|
    && InOrder(Upto(h, at), e)
    && (Commits(Upto(h, at), e) ==> at + 1 < |h| && h[at + 1] == After(Upto(h, at), e))
  }

  /** The positions this call added to the history. */
  ghost function Added(h: seq<DB>, e: Event, at: nat): set<nat>
    requires at < |h| && InOrder(Upto(h, at), e)
  {
    if Commits(Upto(h, at), e) then {at + 1} else {}
  }

  /** The whole effect of a call on the database: one request served, everything else done by other sessions. */
  ghost predicate Handled(db: Database, past: seq<DB>, mine: set<nat>, e: Event, at: nat)
    reads db
  {
    && db.Idle()
    && past <= db.history
    && Served(db.history, |past|, e, at)
    && db.own == mine + Added(db.history, e, at)
  }

  /** The reads and checks of a call: nothing written, and the transaction planned is the protocol's. */
  ghost predicate Prepared(db: Database, past: seq<DB>, mine: set<nat>, call: Call, who: Caller, p: Result<Tx>,
      e: Event)
    reads db
  {
    && db.Idle()
    && past <= db.history && db.own == mine
    && e.call == call && e.who == who && !e.fault && |past| <= e.own + 1
    && InOrder(db.history, e) && Planned(db.history, e) == p
  }

  ghost predicate Done(h: seq<DB>, e: Event, at: nat)
    requires at < |h| && InOrder(Upto(h, at), e)
  {
    Commits(Upto(h, at), e)
  }

  /** Why a request that did not commit was refused. */
  ghost function Refusal(h: seq<DB>, e: Event): Error
    requires InOrder(h, e) && !Commits(h, e)
  {
    if Planned(h, e).Err? then Planned(h, e).error
    else if e.fault then StorageFault
    else Commit(Now(h), Planned(h, e).value).error
  }

  ghost function Reread<T>(row: Option<Row<T>>): Result<Row<T>> {
    if row.None? then Err(NotFound) else Ok(row.value)
  }

  lemma SamePrefix(h: seq<DB>, k: seq<DB>, at: nat)
    requires at < |h| && h <= k
    ensures Upto(k, at) == Upto(h, at)
  {
  }

  /** How a transaction that was to have the effect of the plan ended, read as the end of the request. */
  lemma Concluded(h: seq<DB>, e: Event, tx: Tx, k: seq<DB>, err: Option<Error>)
    requires InOrder(h, e) && Planned(h, e) == Ok(tx)
    requires k != [] && (err.None? ==> !e.fault && k == h + [Now(k)] && Commit(Now(h), tx) == Ok(Now(k)))
    requires err.Some? ==> k == h && if e.fault then err == Some(StorageFault) else Commit(Now(h), tx) == Err(err.value)
    ensures Upto(k, |h| - 1) == h
    ensures Commits(h, e) <==> err.None?
    ensures Commits(h, e) ==> |k| == |h| + 1 && k[|h|] == After(h, e)
    ensures err.Some? ==> err.value == Refusal(h, e)
  {
    hide Plan, Commit;
  }

  lemma Refused(h: seq<DB>, e: Event)
    requires InOrder(h, e) && Planned(h, e).Err?
    ensures !Commits(h, e) && Refusal(h, e) == Planned(h, e).error
  {
    hide Plan;
  }

  /** What has been read stays read while the history grows. */
  lemma PlanStays(h: seq<DB>, k: seq<DB>, e: Event)
    requires InOrder(h, e) && h <= k
    ensures InOrder(k, e) && Planned(k, e) == Planned(h, e)
  {
    hide Plan;
  }

  lemma WholePrefix(h: seq<DB>)
    requires h != []
    ensures Upto(h, |h| - 1) == h
  {
  }

  /** Whether the transaction will meet a fault plays no part in the plan. */
  lemma FaultUnplanned(h: seq<DB>, e: Event, fault: bool)
    requires InOrder(h, e)
    ensures InOrder(h, e.(fault := fault)) && Planned(h, e.(fault := fault)) == Planned(h, e)
  {
    hide Plan;
  }
}
