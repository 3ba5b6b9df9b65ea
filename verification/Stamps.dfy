/** One strictly increasing clock: no two outbox rows ever share a created_at, in any run. */
module Stamps {
  import opened Prelude
  import opened Domain
  import opened Outbox
  import opened Machine
  import opened Tables
  import opened Delivery
  import opened Conservation
  import opened Guarantees
  import opened Serial

  ghost predicate DistinctStamps(rows: seq<OutboxRow>) {
    forall a, b :: 0 <= a < b < |rows| ==> rows[a].createdAt != rows[b].createdAt
  }

  /** The stamp Create drew for its row before it opened its transaction, while the row is not inserted yet. */
  function DraftStamp(o: Open): Option<Time> {
    if o.todo != [] && o.todo[0].Ready? then Some(o.todo[0].row.createdAt) else None
  }

  /** A drawn stamp belongs to no inserted row and to no other open transaction. */
  ghost predicate DraftsDistinct(open: map<Uuid, Open>, rows: seq<OutboxRow>) {
    forall i :: i in open && DraftStamp(open[i]).Some? ==>
      && (forall k :: 0 <= k < |rows| ==> rows[k].createdAt != DraftStamp(open[i]).value)
      && (forall j :: j in open && j != i ==> DraftStamp(open[j]) != DraftStamp(open[i]))
  }

  ghost predicate StampsOk(s: Sys) {
    DistinctStamps(s.outbox) && DraftsDistinct(s.open, s.outbox)
  }

  /** Stamps in rows and drafts come from the past, and a transaction has one draft at most. */
  lemma {:induction false} StampsBounded(s: Sys)
    requires TablesOk(s)
    ensures forall k :: 0 <= k < |s.outbox| ==> s.outbox[k].createdAt < s.clock
    ensures forall i :: i in s.open && DraftStamp(s.open[i]).Some? ==> DraftStamp(s.open[i]).value < s.clock
    ensures forall i :: i in s.open && s.open[i].todo != [] ==>
              DraftStamp(s.open[i].(todo := s.open[i].todo[1..])) == None
  {
    hide OutboxOk, PlannedOk, HistoryOk, RowsFromThePast, WritesOk, AuditOk;
    OutboxBounds(s);
    forall i | i in s.open && s.open[i].todo != []
      ensures DraftStamp(s.open[i]).Some? ==> DraftStamp(s.open[i]).value < s.clock
      ensures DraftStamp(s.open[i].(todo := s.open[i].todo[1..])) == None
    {
      DraftsOfOpen(s, i);
    }
  }

  lemma {:induction false} DraftsOfOpen(s: Sys, i: Uuid)
    requires OpensOk(s.open, s.incidents, s.outbox, s.visible, s.clock, s.nextId)
    requires i in s.open && s.open[i].todo != []
    ensures DraftStamp(s.open[i]).Some? ==> DraftStamp(s.open[i]).value < s.clock
    ensures DraftStamp(s.open[i].(todo := s.open[i].todo[1..])) == None
  {
    hide AuditOk, PlanOk, PatchPayloads, ApplyUpdate, FirstRow, Normal, FromRow, WrittenBy;
    var o := s.open[i];
    assert OpenOk(i, o, s.incidents, s.outbox, s.visible, s.clock, s.nextId);
    assert DraftOk(o.todo[0], o, |o.staged|, s.clock, s.nextId);
    if |o.todo| > 1 {
      assert DraftOk(o.todo[1], o, |o.staged| + 1, s.clock, s.nextId);
    }
  }

  lemma {:induction false} EnqueueKeepsStamps(s: Sys, i: Uuid)
    requires TablesOk(s) && StampsOk(s) && i in s.open && s.open[i].todo != []
    ensures StampsOk(DoEnqueue(s, i))
  {
    hide TablesOk;
    StampsBounded(s);
    var t := DoEnqueue(s, i);
    var r := RowFor(s, s.open[i]);
    assert r.createdAt == DraftStamp(s.open[i]).GetOr(s.clock);
    assert DraftStamp(t.open[i]) == DraftStamp(s.open[i].(todo := s.open[i].todo[1..])) == None;
  }

  lemma {:induction false} StepKeepsStamps(s: Sys, a: Action)
    requires TablesOk(s) && StampsOk(s) && Enabled(s, a)
    ensures StampsOk(Apply(s, a))
  {
    hide TablesOk, IsFetch, UniqueExternal, Writes, StagedOk, RowFor, ValidCreate, PreparedCreate, LockedBy, AuditFor,
         PatchTxFor, DoEnqueue, DraftStamp, StampsOk;
    match a
    case OpenCreate(c) => OpenCreateKeepsStamps(s, c);
    case Lock(tx) => LockKeepsStamps(s, tx);
    case Record(i) => RecordKeepsStamps(s, i);
    case Enqueue(i) => EnqueueKeepsStamps(s, i);
    case Commit(i) => FewerKeepStamps(s, DoCommit(s, i));
    case Abort(i) => FewerKeepStamps(s, Apply(s, a));
    case InsertMalformed(tenant) => MalformedKeepsStamps(s, tenant);
    case _ => FewerKeepStamps(s, Apply(s, a));
  }

  lemma {:induction false} FewerKeepStamps(s: Sys, t: Sys)
    requires StampsOk(s) && t.outbox == s.outbox
    requires forall i :: i in t.open ==> i in s.open && t.open[i] == s.open[i]
    ensures StampsOk(t)
  {
    hide DraftStamp;
  }

  lemma {:induction false} OpenCreateKeepsStamps(s: Sys, c: CreateCall)
    requires TablesOk(s) && StampsOk(s)
    ensures StampsOk(DoOpenCreate(s, c))
  {
    hide TablesOk;
    StampsBounded(s);
    CreateIsNew(s, c);
    var o := PreparedCreate(c, s.clock, s.nextId);
    assert DraftStamp(o) == Some(s.clock);
  }

  lemma {:induction false} LockKeepsStamps(s: Sys, tx: PatchTx)
    requires StampsOk(s) && tx.id in s.incidents && tx.id !in s.open
    ensures StampsOk(DoLock(s, tx))
  {
    hide ApplyUpdate, FromRow, PatchPayloads;
    assert DraftStamp(LockedBy(tx, s.incidents[tx.id])) == None;
  }

  lemma {:induction false} RecordKeepsStamps(s: Sys, i: Uuid)
    requires StampsOk(s) && i in s.open
    ensures StampsOk(DoRecord(s, i))
  {
    hide AuditFor;
    assert DraftStamp(DoRecord(s, i).open[i]) == DraftStamp(s.open[i]);
  }

  lemma {:induction false} MalformedKeepsStamps(s: Sys, tenant: Uuid)
    requires TablesOk(s) && StampsOk(s)
    ensures StampsOk(DoInsertMalformed(s, tenant))
  {
    hide TablesOk, DraftStamp;
    StampsBounded(s);
  }

  lemma {:induction false} RunsKeepStamps(acts: seq<Action>)
    requires Exec(Init(), acts).Some?
    ensures StampsOk(Exec(Init(), acts).value)
  {
    hide TablesOk, DeliveryOk, CountsOk, Enabled, Apply;
    if acts != [] {
      var n := |acts| - 1;
      RunsKeepStamps(acts[..n]);
      ReachableIsSound(acts[..n]);
      StepKeepsStamps(Exec(Init(), acts[..n]).value, acts[n]);
    }
  }

  /**
   * In every run the rows of the outbox, committed or not, have pairwise distinct stamps, and so
   * do the rows open transactions have prepared.
   */
  lemma {:induction false} ReachableTimesDistinct(s: Sys)
    requires Reachable(s)
    ensures DistinctStamps(s.outbox) && DraftsDistinct(s.open, s.outbox)
  {
    hide Exec, Init, DistinctStamps, DraftsDistinct;
    var acts: seq<Action> :| Exec(Init(), acts) == Some(s);
    RunsKeepStamps(acts);
  }
}
