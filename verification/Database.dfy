/** The stored tables, changed in place by statements inside transactions. Other sessions commit at the
    scheduling points of a request: whenever it reads, and before its transaction begins. */
module Store {
  import opened Prelude
  import opened Text
  import opened Model
  import opened Transactions
  import opened Protocol
  import opened Trail

  /** Some transaction of the script led from the state before to this one. */
  ghost predicate Scripted(h: seq<DB>, p: nat, script: seq<seq<Tx>>)
    requires 0 < p < |h|
  {
    exists b, t :: 0 <= b < |script| && 0 <= t < |script[b]| && Commit(h[p - 1], script[b][t]) == Ok(h[p])
  }

  /** Every committed state but the first was committed through `End` or by a transaction of the script. */
  ghost predicate Accounted(h: seq<DB>, own: set<nat>, script: seq<seq<Tx>>) {
    && (forall p :: p in own ==> 0 < p < |h|)
    && (forall p :: 0 < p < |h| && p !in own ==> Scripted(h, p, script))
  }

  lemma AccountedMore(h: seq<DB>, own: set<nat>, script: seq<seq<Tx>>, next: DB, mine: bool)
    requires h != [] && Accounted(h, own, script)
    requires mine || exists b, t ::
        0 <= b < |script| && 0 <= t < |script[b]| && Commit(Now(h), script[b][t]) == Ok(next)
    ensures Accounted(h + [next], if mine then own + {|h|} else own, script)
  {
    hide Commit;
    var k := h + [next];
    forall p | 0 < p < |k| && p !in (if mine then own + {|h|} else own)
      ensures Scripted(k, p, script)
    {
      if p < |h| {
        assert Scripted(h, p, script);
      }
    }
  }

  class Database {
    /** All that other sessions will ever commit, in the order of the scheduling points; nothing can change it. */
    const script: seq<seq<Tx>>

    var gates: Table<Gate>
    var directives: Table<Directive>
    var receipts: Table<Receipt>
    var approvals: seq<Approval>
    var audits: seq<Audit>

    /** Open transactions, outermost first, each with the state to return to. */
    var savepoints: seq<DB>

    /** What is left of the script. */
    var agenda: seq<seq<Tx>>

    /** The committed states so far, and the positions of those committed through `End`. */
    ghost var history: seq<DB>
    ghost var own: set<nat>

    function State(): DB
      reads this
    {
      DB(gates, directives, receipts, approvals, audits)
    }

    /** No transaction is open; the tables are the last committed state, and every commit is accounted for. */
    ghost predicate Idle()
      reads this
    {
      && savepoints == [] && history != [] && Now(history) == State() && Indexed(State())
      && Accounted(history, own, script)
      && |agenda| <= |script| && agenda == script[|script| - |agenda|..]
    }

    constructor (db: DB, others: seq<seq<Tx>>)
      requires Indexed(db)
      ensures Idle() && State() == db && history == [db] && own == {} && script == others
    {
      script := others;
      gates, directives, receipts, approvals, audits := db.gates, db.directives, db.receipts, db.approvals, db.audits;
      savepoints, agenda, history, own := [], others, [db], {};
    }

    method Load(db: DB)
      modifies `gates, `directives, `receipts, `approvals, `audits
      ensures State() == db
    {
      gates, directives, receipts, approvals, audits := db.gates, db.directives, db.receipts, db.approvals, db.audits;
    }

    /** A scheduling point: other sessions' transactions commit, or fail, one after the other. */
    method Yield()
      requires Idle()
      modifies this
      ensures Idle() && own == old(own) && old(history) <= history
    {
      if agenda == [] {
        return;
      }
      hide Commit, Indexed, Accounted;
      var batch := agenda[0];
      assert batch == script[|script| - |agenda|];
      agenda := agenda[1..];
      for i := 0 to |batch|
        invariant Idle() && own == old(own) && old(history) <= history
      {
        var next := Commit(State(), batch[i]);
        if next.Ok? {
          CommitKeepsIndexes(State(), batch[i]);
          AccountedMore(history, own, script, next.value, false);
          Load(next.value);
          history := history + [next.value];
        }
      }
    }

    /** The end of a transaction that was to have the effect of `tx`: committed whole, or nothing changed. */
    ghost predicate Settled(was: DB, tx: Tx, past: seq<DB>, mine: set<nat>, err: Option<Error>, fault: bool)
      reads this
    {
      if err.None? then
        !fault && Commit(was, tx) == Ok(State()) && history == past + [State()] && own == mine + {|past|}
      else
        State() == was && history == past && own == mine
            && (if fault then err == Some(StorageFault) else Commit(was, tx) == Err(err.value))
    }

    // ---- Reads ----

    method GetGate(id: Id) returns (row: Option<Row<Gate>>, ghost at: nat)
      requires Idle()
      modifies this
      ensures Idle() && own == old(own) && old(history) <= history
      ensures at == |history| - 1 && row == Find(history[at].gates, id)
    {
      Yield();
      row, at := Find(gates, id), |history| - 1;
    }

    method GetDirective(id: Id) returns (row: Option<Row<Directive>>, ghost at: nat)
      requires Idle()
      modifies this
      ensures Idle() && own == old(own) && old(history) <= history
      ensures at == |history| - 1 && row == Find(history[at].directives, id)
    {
      Yield();
      row, at := Find(directives, id), |history| - 1;
    }

    /** The approval records of a directive, ordered by time and then by key, as they are loaded with it. */
    method GetTrail(id: Id) returns (trail: seq<Approval>, ghost at: nat)
      requires Idle()
      modifies this
      ensures Idle() && own == old(own) && old(history) <= history
      ensures at == |history| - 1 && trail == LoadedTrail(history[at].approvals, id)
    {
      Yield();
      at := |history| - 1;
      var list: seq<nat> := [];
      for k := 0 to |approvals|
        invariant list == TrailUpto(approvals, id, k)
      {
        if approvals[k].directiveId == id {
          assert forall i :: 0 <= i < |list| ==> list[i] in list;
          list := Place(approvals, list, k);
        }
      }
      trail := RecordsAt(approvals, list);
    }

    method GetReceipt(id: Id) returns (row: Option<Row<Receipt>>, ghost at: nat)
      requires Idle()
      modifies this
      ensures Idle() && own == old(own) && old(history) <= history
      ensures at == |history| - 1 && row == Find(history[at].receipts, id)
    {
      Yield();
      row, at := Find(receipts, id), |history| - 1;
    }

    /** The first live row carrying a code, by scanning the table. */
    static method Lookup<T>(t: Table<T>, code: string) returns (hit: Option<Keyed<T>>)
      requires UniqueCodes(t)
      ensures hit == FindByCode(t, code)
    {
      var keys := t.Keys;
      while keys != {}
        invariant keys <= t.Keys
        invariant forall id :: id in t && id !in keys ==> !CarriesCode(t, id, code)
        decreases |keys|
      {
        var id :| id in keys;
        if !t[id].deleted && t[id].code == code {
          ResolvesTo(t, id);
          return Some(Keyed(id, t[id]));
        }
        keys := keys - {id};
      }
      return None;
    }

    method GetGateByCode(code: string) returns (hit: Option<Keyed<Gate>>, ghost at: nat)
      requires Idle()
      modifies this
      ensures Idle() && own == old(own) && old(history) <= history
      ensures at == |history| - 1 && hit == LinkedGate(history[at], code)
    {
      Yield();
      hit := Lookup(gates, Norm(code));
      at := |history| - 1;
    }

    /** Resolves the code to a key and then reads that key; other sessions may commit in between. */
    method GetDirectiveByCode(code: string) returns (hit: Option<Keyed<Directive>>, ghost key: nat, ghost link: nat)
      requires Idle()
      modifies this
      ensures Idle() && own == old(own) && old(history) <= history
      ensures |old(history)| - 1 <= key <= link == |history| - 1
          && hit == LinkedDirective(history[key], history[link], code)
    {
      Yield();
      var found := Lookup(directives, Norm(code));
      key, link := |history| - 1, |history| - 1;
      if found.None? {
        return None, key, link;
      }
      var row;
      row, link := GetDirective(found.value.id);
      hit := if row.None? then None else Some(Keyed(found.value.id, row.value));
    }

    method CountByDirectiveCode(code: string) returns (count: nat, ghost at: nat)
      requires Idle()
      modifies this
      ensures Idle() && own == old(own) && old(history) <= history
      ensures at == |history| - 1 && count == |LinkedReceipts(history[at].receipts, Norm(code))|
      ensures count > 0 <==> HasReceipt(history[at].receipts, code)
    {
      Yield();
      at := |history| - 1;
      var link := Norm(code);
      count := |LinkedReceipts(receipts, link)|;
      LinkedCounts(receipts, link);
    }

    // ---- Transactions ----

    /** Opens a transaction, or a savepoint inside an open one. */
    method Begin()
      modifies `savepoints
      ensures savepoints == old(savepoints) + [State()]
    {
      savepoints := savepoints + [State()];
    }

    /** Ends the innermost transaction: an error returns to where it began, success keeps its writes,
        and ending the outermost one successfully commits. */
    method End(err: Option<Error>)
      requires savepoints != []
      modifies this
      ensures savepoints == old(savepoints)[..|old(savepoints)| - 1] && agenda == old(agenda)
      ensures State() == if err.None? then old(State()) else old(savepoints)[|old(savepoints)| - 1]
      ensures err.None? && savepoints == [] ==>
          history == old(history) + [State()] && own == old(own) + {|old(history)|}
      ensures err.Some? || savepoints != [] ==> history == old(history) && own == old(own)
    {
      var begun := savepoints[|savepoints| - 1];
      savepoints := savepoints[..|savepoints| - 1];
      if err.Some? {
        Load(begun);
      } else if savepoints == [] {
        own := own + {|history|};
        history := history + [State()];
      }
    }

    method ExecGate(c: Change<Gate>, fault: bool) returns (err: Option<Error>)
      modifies `gates
      ensures err.None? ==> !fault && Apply(old(gates), c) == Ok(gates)
      ensures err.Some? ==> gates == old(gates) && if fault then err == Some(StorageFault)
          else Apply(gates, c) == Err(err.value)
    {
      if fault {
        return Some(StorageFault);
      }
      match c {
      case Insert(id, row) =>
        if id in gates || CodeTaken(gates, row.code) {
          return Some(DuplicateKey);
        }
        gates := gates[id := row];
      case Overwrite(id, expected, row) =>
        if !Live(gates, id) || gates[id].version != expected {
          return Some(VersionConflict);
        }
        gates := gates[id := row.(code := gates[id].code, deleted := false)];
      case SoftDelete(id) =>
        if !Live(gates, id) {
          return Some(NotFound);
        }
        gates := gates[id := gates[id].(deleted := true)];
      }
      return None;
    }

    method ExecDirective(c: Change<Directive>, fault: bool) returns (err: Option<Error>)
      modifies `directives
      ensures err.None? ==> !fault && Apply(old(directives), c) == Ok(directives)
      ensures err.Some? ==> directives == old(directives) && if fault then err == Some(StorageFault)
          else Apply(directives, c) == Err(err.value)
    {
      if fault {
        return Some(StorageFault);
      }
      match c {
      case Insert(id, row) =>
        if id in directives || CodeTaken(directives, row.code) {
          return Some(DuplicateKey);
        }
        directives := directives[id := row];
      case Overwrite(id, expected, row) =>
        if !Live(directives, id) || directives[id].version != expected {
          return Some(VersionConflict);
        }
        directives := directives[id := row.(code := directives[id].code, deleted := false)];
      case SoftDelete(id) =>
        if !Live(directives, id) {
          return Some(NotFound);
        }
        directives := directives[id := directives[id].(deleted := true)];
      }
      return None;
    }

    method ExecReceipt(c: Change<Receipt>, fault: bool) returns (err: Option<Error>)
      modifies `receipts
      ensures err.None? ==> !fault && !LinkClash(old(receipts), c) && Apply(old(receipts), c) == Ok(receipts)
      ensures err.Some? ==> receipts == old(receipts)
      ensures err.Some? ==> if fault then err == Some(StorageFault)
                            else if LinkClash(receipts, c) then err == Some(DuplicateKey)
                            else Apply(receipts, c) == Err(err.value)
    {
      if fault {
        return Some(StorageFault);
      }
      match c {
      case Insert(id, row) =>
        if id in receipts || CodeTaken(receipts, row.code) || LinkTaken(receipts, id, row.body.relatedCode) {
          return Some(DuplicateKey);
        }
        receipts := receipts[id := row];
      case Overwrite(id, expected, row) =>
        if !Live(receipts, id) || receipts[id].version != expected {
          return Some(VersionConflict);
        }
        if LinkTaken(receipts, id, row.body.relatedCode) {
          return Some(DuplicateKey);
        }
        receipts := receipts[id := row.(code := receipts[id].code, deleted := false)];
      case SoftDelete(id) =>
        if !Live(receipts, id) {
          return Some(NotFound);
        }
        receipts := receipts[id := receipts[id].(deleted := true)];
      }
      return None;
    }

    method AppendApproval(a: Approval, fault: bool) returns (err: Option<Error>)
      modifies `approvals
      ensures err.None? ==> !fault && ApplyApproval(old(approvals), Some(a)) == Ok(approvals)
      ensures err.Some? ==> approvals == old(approvals) && if fault then err == Some(StorageFault)
          else ApplyApproval(approvals, Some(a)) == Err(err.value)
    {
      if fault {
        return Some(StorageFault);
      }
      if StageTaken(approvals, a) {
        return Some(DuplicateKey);
      }
      approvals := approvals + [a];
      return None;
    }

    // One row and its audit entry in a transaction of their own; `io(k)` says whether the k-th statement fails.

    /** The two statements, up to the first that fails. */
    method WriteGate(c: Change<Gate>, entry: Audit, io: nat -> bool) returns (err: Option<Error>, ghost fault: bool)
      modifies `gates, `audits
      ensures err.None? ==> !fault && Apply(old(gates), c) == Ok(gates) && audits == old(audits) + [entry]
      ensures err.Some? ==> if fault then err == Some(StorageFault) else Apply(old(gates), c) == Err(err.value)
      ensures (forall k :: !io(k)) ==> !fault
    {
      hide Apply;
      err := ExecGate(c, io(0));
      fault := io(0);
      if err.None? {
        err := AppendAudit(entry, io(1));
        fault := io(1);
      }
    }

    method SaveGate(c: Change<Gate>, entry: Audit, io: nat -> bool) returns (err: Option<Error>, ghost fault: bool)
      requires Idle()
      modifies this
      ensures Idle() && Settled(old(State()), NO_WRITES.(gate := Write(c, entry)), old(history), old(own), err, fault)
      ensures (forall k :: !io(k)) ==> !fault
    {
      hide Commit, Apply, Indexed, Accounted;
      CommitOnlyGate(State(), c, entry);
      if Commit(State(), NO_WRITES.(gate := Write(c, entry))).Ok? {
        CommitKeepsIndexes(State(), NO_WRITES.(gate := Write(c, entry)));
        AccountedMore(history, own, script, Commit(State(), NO_WRITES.(gate := Write(c, entry))).value, true);
      }
      Begin();
      err, fault := WriteGate(c, entry, io);
      End(err);
    }

    /** The two statements, up to the first that fails. */
    method WriteDirective(c: Change<Directive>, entry: Audit, io: nat -> bool)
        returns (err: Option<Error>, ghost fault: bool)
      modifies `directives, `audits
      ensures err.None? ==> !fault && Apply(old(directives), c) == Ok(directives) && audits == old(audits) + [entry]
      ensures err.Some? ==> if fault then err == Some(StorageFault) else Apply(old(directives), c) == Err(err.value)
      ensures (forall k :: !io(k)) ==> !fault
    {
      hide Apply;
      err := ExecDirective(c, io(0));
      fault := io(0);
      if err.None? {
        err := AppendAudit(entry, io(1));
        fault := io(1);
      }
    }

    method SaveDirective(c: Change<Directive>, entry: Audit, io: nat -> bool)
        returns (err: Option<Error>, ghost fault: bool)
      requires Idle()
      modifies this
      ensures Idle() && Settled(old(State()), NO_WRITES.(directive := Write(c, entry)), old(history), old(own), err,
          fault)
      ensures (forall k :: !io(k)) ==> !fault
    {
      hide Commit, Apply, Indexed, Accounted;
      CommitOnlyDirective(State(), c, entry);
      if Commit(State(), NO_WRITES.(directive := Write(c, entry))).Ok? {
        CommitKeepsIndexes(State(), NO_WRITES.(directive := Write(c, entry)));
        AccountedMore(history, own, script, Commit(State(), NO_WRITES.(directive := Write(c, entry))).value, true);
      }
      Begin();
      err, fault := WriteDirective(c, entry, io);
      End(err);
    }

    /** The two statements, up to the first that fails. */
    method WriteReceipt(c: Change<Receipt>, entry: Audit, io: nat -> bool)
        returns (err: Option<Error>, ghost fault: bool)
      modifies `receipts, `audits
      ensures err.None? ==>
          !fault && ApplyReceipt(old(receipts), Write(c, entry)) == Ok(receipts) && audits == old(audits) + [entry]
      ensures err.Some? ==> if fault then err == Some(StorageFault)
          else ApplyReceipt(old(receipts), Write(c, entry)) == Err(err.value)
      ensures (forall k :: !io(k)) ==> !fault
    {
      hide Apply, LinkClash;
      err := ExecReceipt(c, io(0));
      fault := io(0);
      if err.None? {
        err := AppendAudit(entry, io(1));
        fault := io(1);
      }
    }

    method SaveReceipt(c: Change<Receipt>, entry: Audit, io: nat -> bool)
        returns (err: Option<Error>, ghost fault: bool)
      requires Idle()
      modifies this
      ensures Idle() && Settled(old(State()), NO_WRITES.(receipt := Write(c, entry)), old(history), old(own), err,
          fault)
      ensures (forall k :: !io(k)) ==> !fault
    {
      hide Commit, Apply, ApplyReceipt, Indexed, LinkClash, Accounted;
      CommitOnlyReceipt(State(), c, entry);
      if Commit(State(), NO_WRITES.(receipt := Write(c, entry))).Ok? {
        CommitKeepsIndexes(State(), NO_WRITES.(receipt := Write(c, entry)));
        AccountedMore(history, own, script, Commit(State(), NO_WRITES.(receipt := Write(c, entry))).value, true);
      }
      Begin();
      err, fault := WriteReceipt(c, entry, io);
      End(err);
    }

    method AppendAudit(entry: Audit, fault: bool) returns (err: Option<Error>)
      modifies `audits
      ensures err.None? ==> !fault && audits == old(audits) + [entry]
      ensures err.Some? ==> fault && err == Some(StorageFault) && audits == old(audits)
    {
      if fault {
        return Some(StorageFault);
      }
      audits := audits + [entry];
      return None;
    }
  }

  function LinkedReceipts(t: Table<Receipt>, link: string): set<Id> {
    set r | r in t && !t[r].deleted && t[r].body.relatedCode == link
  }

  lemma LinkedCounts(t: Table<Receipt>, link: string)
    ensures |LinkedReceipts(t, link)| > 0 <==> exists r :: r in t && !t[r].deleted && t[r].body.relatedCode == link
  {
    if r :| r in t && !t[r].deleted && t[r].body.relatedCode == link {
      assert r in LinkedReceipts(t, link);
    }
  }
}
