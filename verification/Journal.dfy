/** The audit log as a journal: replaying the entries that name a row gives the stored row's status,
    version and soft-delete mark. The automaton accepts only walks in the row's transition graph. */
module Journal {
  import opened Status
  import opened Model
  import opened Transactions
  import opened Evolution
  import opened Grounding
  import opened Agreement

  datatype Track = Absent | At(status: Status, version: nat, deleted: bool) | Broken

  predicate Names(e: Audit, kind: Kind, id: Id) {
    e.kind == kind && e.entityId == id
  }

  predicate IsUpdate(e: Audit) {
    e.action != CreateAction && e.action != DeleteAction
  }

  /** One entry read against what is known so far; anything out of order breaks the track. */
  function Advance(kind: Kind, t: Track, e: Audit): Track {
    if e.action == CreateAction then
      if t.Absent? && e.before == Blank && e.after == Initial(kind) then At(e.after, 1, false) else Broken
    else if e.action == DeleteAction then
      if t.At? && !t.deleted then t.(deleted := true) else Broken
    else if t.At? && !t.deleted && e.before == t.status
        && (e.before == e.after || CanTransition(kind, e.before, e.after)) then
      At(e.after, t.version + 1, false)
    else
      Broken
  }

  function Replay(kind: Kind, id: Id, start: Track, log: seq<Audit>): Track {
    if log == [] then start
    else
      var before := Replay(kind, id, start, log[..|log| - 1]);
      var e := log[|log| - 1];
      if Names(e, kind, id) then Advance(kind, before, e) else before
  }

  function TrackOf<T>(t: Table<T>, id: Id): Track {
    if id in t then At(t[id].status, t[id].version, t[id].deleted) else Absent
  }

  /** The entries written since `origin` carry every row from its state there to its state now. */
  ghost predicate Journaled(origin: DB, db: DB) {
    && origin.audits <= db.audits
    && var log := db.audits[|origin.audits|..];
    && (forall id :: Replay(GateUnit, id, TrackOf(origin.gates, id), log) == TrackOf(db.gates, id))
    && (forall id :: Replay(OperationDirective, id, TrackOf(origin.directives, id), log) == TrackOf(db.directives, id))
    && (forall id :: Replay(ExecutionConfirmation, id, TrackOf(origin.receipts, id), log) == TrackOf(db.receipts, id))
  }

  lemma ReplayOne(kind: Kind, id: Id, start: Track, log: seq<Audit>, e: Audit)
    ensures Replay(kind, id, start, log + [e])
         == if Names(e, kind, id) then Advance(kind, Replay(kind, id, start, log), e) else Replay(kind, id, start, log)
  {
    assert (log + [e])[..|log|] == log;
  }

  /** A faithful write and its entry move the row and its track together. */
  lemma OwnEntryTracks<T>(kind: Kind, id: Id, start: Track, log: seq<Audit>, t: Table<T>, w: RowWrite<T>, u: Table<T>)
    requires Written(t, w, u) && Faithful(t, w, kind)
    requires Replay(kind, id, start, log) == TrackOf(t, id)
    ensures Replay(kind, id, start, log + Entry(w)) == TrackOf(u, id)
  {
    hide Replay, Targets;
    if w.Skip? {
      assert log + Entry(w) == log;
    } else {
      ReplayOne(kind, id, start, log, w.entry);
    }
  }

  lemma OtherEntrySkipped<T>(kind: Kind, id: Id, start: Track, log: seq<Audit>, w: RowWrite<T>, other: Kind)
    requires Shaped(w, other) && other != kind
    ensures Replay(kind, id, start, log + Entry(w)) == Replay(kind, id, start, log)
  {
    if w.Skip? {
      assert log + Entry(w) == log;
    } else {
      ReplayOne(kind, id, start, log, w.entry);
    }
  }

  lemma JournalKept(origin: DB, db: DB, tx: Tx)
    requires Journaled(origin, db) && Grounded(db, tx) && Commit(db, tx).Ok?
    ensures Journaled(origin, Commit(db, tx).value)
  {
    hide Commit, DirectiveStep, ReceiptStep, Written, Shaped, Replay, TrackOf, Entry;
    var b := Commit(db, tx).value;
    CommitEffect(db, tx);
    hide Faithful;
    FaithfulIsShaped(db, tx);
    var n := |origin.audits|;
    var log, r, d, g := db.audits[n..], Entry(tx.receipt), Entry(tx.directive), Entry(tx.gate);
    assert b.audits[n..] == log + r + d + g;
    forall id
      ensures Replay(GateUnit, id, TrackOf(origin.gates, id), log + r + d + g) == TrackOf(b.gates, id)
    {
      var start := TrackOf(origin.gates, id);
      OtherEntrySkipped(GateUnit, id, start, log, tx.receipt, ExecutionConfirmation);
      OtherEntrySkipped(GateUnit, id, start, log + r, tx.directive, OperationDirective);
      OwnEntryTracks(GateUnit, id, start, log + r + d, db.gates, tx.gate, b.gates);
    }
    forall id
      ensures Replay(OperationDirective, id, TrackOf(origin.directives, id), log + r + d + g) ==
          TrackOf(b.directives, id)
    {
      var start := TrackOf(origin.directives, id);
      OtherEntrySkipped(OperationDirective, id, start, log, tx.receipt, ExecutionConfirmation);
      OwnEntryTracks(OperationDirective, id, start, log + r, db.directives, tx.directive, b.directives);
      OtherEntrySkipped(OperationDirective, id, start, log + r + d, tx.gate, GateUnit);
    }
    forall id
      ensures Replay(ExecutionConfirmation, id, TrackOf(origin.receipts, id), log + r + d + g) ==
          TrackOf(b.receipts, id)
    {
      var start := TrackOf(origin.receipts, id);
      OwnEntryTracks(ExecutionConfirmation, id, start, log, db.receipts, tx.receipt, b.receipts);
      OtherEntrySkipped(ExecutionConfirmation, id, start, log + r, tx.directive, OperationDirective);
      OtherEntrySkipped(ExecutionConfirmation, id, start, log + r + d, tx.gate, GateUnit);
    }
  }

  // ---- What an unbroken track says about the entries ----

  function CountUpdates(kind: Kind, id: Id, log: seq<Audit>): nat {
    if log == [] then 0
    else CountUpdates(kind, id, log[..|log| - 1]) + if Names(log[|log| - 1], kind, id)
        && IsUpdate(log[|log| - 1]) then 1 else 0
  }

  function CountDeletes(kind: Kind, id: Id, log: seq<Audit>): nat {
    if log == [] then 0
    else CountDeletes(kind, id, log[..|log| - 1]) + if Names(log[|log| - 1], kind, id)
        && log[|log| - 1].action == DeleteAction then 1 else 0
  }

  /** Entries that change the status, as opposed to edits of business columns. */
  function CountMoves(kind: Kind, id: Id, log: seq<Audit>): nat {
    if log == [] then 0
    else
      var e := log[|log| - 1];
      CountMoves(kind, id, log[..|log| - 1]) + if Names(e, kind, id) && IsUpdate(e) && e.before != e.after then 1 else 0
  }

  lemma {:induction false} NeverBroken(kind: Kind, id: Id, start: Track, log: seq<Audit>, n: nat)
    requires !Replay(kind, id, start, log).Broken? && n <= |log|
    ensures !Replay(kind, id, start, log[..n]).Broken?
  {
    if n < |log| {
      NeverBroken(kind, id, start, log[..|log| - 1], n);
      assert log[..|log| - 1][..n] == log[..n];
    } else {
      assert log[..n] == log;
    }
  }

  /** Version conservation: one, or the version at the start, plus the number of entries other than create and delete.
      */
  lemma {:induction false} VersionIsCount(kind: Kind, id: Id, start: Track, log: seq<Audit>)
    requires !start.Broken? && Replay(kind, id, start, log).At?
    ensures Replay(kind, id, start, log).version ==
        (if start.At? then start.version else 1) + CountUpdates(kind, id, log)
  {
    if log != [] {
      var init := log[..|log| - 1];
      if Replay(kind, id, start, init).At? {
        VersionIsCount(kind, id, start, init);
      } else {
        NothingWhileAbsent(kind, id, start, init);
      }
    }
  }

  lemma {:induction false} NothingWhileAbsent(kind: Kind, id: Id, start: Track, log: seq<Audit>)
    requires Replay(kind, id, start, log).Absent?
    ensures start.Absent? && CountUpdates(kind, id, log) == 0 && CountDeletes(kind, id, log) == 0
        && CountMoves(kind, id, log) == 0
  {
    if log != [] {
      NothingWhileAbsent(kind, id, start, log[..|log| - 1]);
    }
  }

  /** Deletion is final: a deleted row has exactly one delete entry, any other row none. */
  lemma {:induction false} DeletedOnce(kind: Kind, id: Id, start: Track, log: seq<Audit>)
    requires !start.Broken? && Replay(kind, id, start, log).At?
    ensures CountDeletes(kind, id, log) == if Replay(kind, id, start, log).deleted
        && !(start.At? && start.deleted) then 1 else 0
    ensures start.At? && start.deleted ==> Replay(kind, id, start, log).deleted
  {
    if log != [] {
      var init := log[..|log| - 1];
      if Replay(kind, id, start, init).At? {
        DeletedOnce(kind, id, start, init);
      } else {
        NothingWhileAbsent(kind, id, start, init);
      }
    }
  }

  /** No entry names a row after the one that deleted it. */
  lemma {:induction false} SilentAfterDelete(kind: Kind, id: Id, start: Track, log: seq<Audit>, n: nat)
    requires n <= |log| && !Replay(kind, id, start, log).Broken?
    requires Replay(kind, id, start, log[..n]).At? && Replay(kind, id, start, log[..n]).deleted
    ensures forall k :: n <= k < |log| ==> !Names(log[k], kind, id)
    ensures Replay(kind, id, start, log) == Replay(kind, id, start, log[..n])
  {
    if n < |log| {
      var init := log[..|log| - 1];
      assert init[..n] == log[..n];
      SilentAfterDelete(kind, id, start, init, n);
    } else {
      assert log[..n] == log;
    }
  }

  /** Audit chain: each update entry starts where the previous entry of its row, unless that was the delete, ended. */
  lemma EntriesChain(kind: Kind, id: Id, start: Track, log: seq<Audit>, i: nat, j: nat)
    requires i < j < |log| && !Replay(kind, id, start, log).Broken?
    requires Names(log[i], kind, id) && Names(log[j], kind, id) && IsUpdate(log[j])
    requires forall k :: i < k < j ==> !Names(log[k], kind, id)
    ensures log[i].action != DeleteAction && log[j].before == log[i].after
    ensures log[j].before == log[j].after || CanTransition(kind, log[j].before, log[j].after)
  {
    NeverBroken(kind, id, start, log, j + 1);
    NeverBroken(kind, id, start, log, i + 1);
    assert log[..j + 1][..j] == log[..j] && log[..i + 1][..i] == log[..i];
    Unnamed(kind, id, start, log[..j], i + 1);
    assert log[..j][..i + 1] == log[..i + 1];
  }

  lemma {:induction false} Unnamed(kind: Kind, id: Id, start: Track, log: seq<Audit>, n: nat)
    requires n <= |log| && forall k :: n <= k < |log| ==> !Names(log[k], kind, id)
    ensures Replay(kind, id, start, log) == Replay(kind, id, start, log[..n])
  {
    if n < |log| {
      Unnamed(kind, id, start, log[..|log| - 1], n);
      assert log[..|log| - 1][..n] == log[..n];
    } else {
      assert log[..n] == log;
    }
  }

  /** How many status changes can still follow; gates may move for ever. */
  function Rank(kind: Kind, s: Status): nat {
    match kind
    case GateUnit => 0
    case OperationDirective => (
      match s
      case Draft => 4
      case Pending => 3
      case Approved => 2
      case Executing => 1
      case _ => 0)
    case ExecutionConfirmation => (
      match s
      case Pending => 2
      case Failed => 1
      case _ => 0)
  }

  function TrackRank(kind: Kind, t: Track): nat {
    if t.At? then Rank(kind, t.status) else Rank(kind, Initial(kind))
  }

  /** Termination: every status change spends rank, so a directive makes at most four and a receipt at most two. */
  lemma {:induction false} MovesSpendRank(kind: Kind, id: Id, start: Track, log: seq<Audit>)
    requires kind != GateUnit && !start.Broken? && !Replay(kind, id, start, log).Broken?
    ensures CountMoves(kind, id, log) + TrackRank(kind, Replay(kind, id, start, log)) <= TrackRank(kind, start)
  {
    if log != [] {
      var init := log[..|log| - 1];
      MovesSpendRank(kind, id, start, init);
    }
  }

  lemma MovesBounded(kind: Kind, id: Id, start: Track, log: seq<Audit>)
    requires !start.Broken? && !Replay(kind, id, start, log).Broken?
    ensures kind == OperationDirective ==> CountMoves(kind, id, log) <= 4
    ensures kind == ExecutionConfirmation ==> CountMoves(kind, id, log) <= 2
  {
    if kind != GateUnit {
      MovesSpendRank(kind, id, start, log);
    }
  }
}
