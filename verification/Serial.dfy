/** A Patch that runs alone: its steps as one run of the machine, and the state that run ends in. */
module Serial {
  import opened Prelude
  import opened Lifecycle
  import opened Domain
  import opened Outbox
  import opened Machine
  import opened Tables

  /** No transaction is open. */
  predicate Quiet(s: Sys) {
    s.open == map[] && s.planned == {}
  }

  function Enqueues(i: Uuid, n: nat): seq<Action> {
    if n == 0 then [] else Enqueues(i, n - 1) + [Enqueue(i)]
  }

  /** The number of events one Patch writes. */
  function EventCount(plan: Plan): nat {
    1 + if plan.StatusChanged() then (if plan.status.value.to == Closed then 2 else 1) else 0
  }

  /** The steps of a Patch that nothing interrupts. */
  function PatchActions(s: Sys, c: PatchCall): seq<Action>
    requires Writes(s, c)
  {
    [ReadPrior(c), Lock(PatchTxFor(s, c)), Record(c.id)]
    + Enqueues(c.id, EventCount(PatchPlan(s, c).value))
    + [Commit(c.id)]
  }

  /** k positions from n on. */
  function Positions(n: nat, k: nat): seq<nat> {
    seq(k, x => n + x)
  }

  /** The row repeats its envelope's id, tenant and time. */
  predicate StampedAlike(row: OutboxRow, tenant: Uuid) {
    && row.body.WellFormed? && row.tenant == tenant
    && row.eventId == row.body.env.eventId && row.createdAt == row.body.env.occurredAt
  }

  /** The x-th row after position n is the x-th event of the transaction. */
  ghost predicate RowWritten(rows: seq<OutboxRow>, n: nat, o: Open, x: nat) {
    && n + x < |rows| && x < |o.payloads|
    && rows[n + x].body.WellFormed? && WrittenBy(rows[n + x].body.env, o, x)
    && StampedAlike(rows[n + x], o.row.tenant)
  }

  /** t is s with the first k events of the open transaction on i inserted. */
  ghost predicate Inserted(s: Sys, t: Sys, i: Uuid, k: nat)
    requires i in s.open && k <= |s.open[i].todo| && |s.open[i].todo| <= |s.open[i].payloads|
  {
    && |t.outbox| == |s.outbox| + k
    && s.outbox <= t.outbox
    && (forall x :: 0 <= x < k ==> RowWritten(t.outbox, |s.outbox|, s.open[i], x))
    && t == s.(outbox := t.outbox, clock := s.clock + k, nextId := s.nextId + k,
               open := s.open[i := s.open[i].(staged := Positions(|s.outbox|, k), todo := s.open[i].todo[k..])])
  }

  lemma {:induction false} InsertOne(s: Sys, t: Sys, i: Uuid, k: nat)
    requires i in s.open && |s.open[i].todo| == |s.open[i].payloads| && s.open[i].staged == []
    requires k < |s.open[i].todo| && Inserted(s, t, i, k) && TablesOk(t) && s.open[i].audit.Some?
    requires forall x :: 0 <= x < |s.open[i].todo| ==> s.open[i].todo[x].Fresh?
    ensures Enabled(t, Enqueue(i)) && Inserted(s, DoEnqueue(t, i), i, k + 1)
  {
    hide OutboxOk, OpensOk, PlannedOk, HistoryOk, RowsFromThePast;
    var o := t.open[i];
    OutboxBounds(t);
    NextRowOk(t, i);
    var t' := DoEnqueue(t, i);
    assert o.todo[1..] == s.open[i].todo[k + 1..];
    assert o.staged + [|t.outbox|] == Positions(|s.outbox|, k + 1);
    forall x | 0 <= x < k + 1
      ensures RowWritten(t'.outbox, |s.outbox|, s.open[i], x)
    {
      if x < k {
        assert RowWritten(t.outbox, |s.outbox|, s.open[i], x);
      }
    }
  }

  /** Inserting k of the events. */
  lemma {:induction false} InsertRun(s: Sys, i: Uuid, k: nat)
    requires TablesOk(s) && i in s.open && s.open[i].staged == [] && s.open[i].audit.Some?
    requires k <= |s.open[i].todo| == |s.open[i].payloads|
    requires forall x :: 0 <= x < |s.open[i].todo| ==> s.open[i].todo[x].Fresh?
    ensures Exec(s, Enqueues(i, k)).Some?
    ensures TablesOk(Exec(s, Enqueues(i, k)).value) && Inserted(s, Exec(s, Enqueues(i, k)).value, i, k)
  {
    hide TablesOk, Inserted, Enabled, RowFor;
    if k == 0 {
      InsertedNone(s, i);
    } else {
      InsertRun(s, i, k - 1);
      var t := Exec(s, Enqueues(i, k - 1)).value;
      InsertOne(s, t, i, k - 1);
      StepKeepsTables(t, Enqueue(i));
      ExecSnoc(s, Enqueues(i, k - 1), Enqueue(i));
    }
  }

  lemma {:induction false} InsertedNone(s: Sys, i: Uuid)
    requires i in s.open && s.open[i].staged == [] && |s.open[i].todo| <= |s.open[i].payloads|
    ensures Inserted(s, s, i, 0)
  {
    var o := s.open[i];
    assert o == o.(staged := Positions(|s.outbox|, 0), todo := o.todo[0..]);
    assert s.open == s.open[i := o];
  }

  /** An outbox row carries this event of a Patch. */
  ghost predicate Carries(rows: seq<OutboxRow>, k: nat, c: PatchCall, payload: Payload, correlation: Uuid) {
    && k < |rows| && rows[k].body.WellFormed?
    && rows[k].body.env.payload == payload
    && rows[k].body.env.entity == c.id
    && rows[k].body.env.actor == c.who
    && rows[k].body.env.tenant == c.tenant
    && rows[k].body.env.correlation == correlation
    && StampedAlike(rows[k], c.tenant)
  }

  /** What a Patch alone does: one row, one audit row, its events in order, and nothing else. */
  ghost predicate PatchedAlone(s: Sys, t: Sys, c: PatchCall)
    requires Writes(s, c)
  {
    var plan := PatchPlan(s, c).value;
    var row := ApplyUpdate(s.incidents[c.id], plan.upd);
    var payloads := PatchPayloads(plan, FromRow(row));
    var correlation := CorrelationFor(c.correlation, s.nextId);
    && t.incidents == s.incidents[c.id := row]
    && |t.audit| == |s.audit| + 1 && s.audit <= t.audit
    && t.audit[|s.audit|].action == (if plan.StatusChanged() then StatusChangeAction else UpdateAction)
    && t.audit[|s.audit|].result == Success
    && t.audit[|s.audit|].target == Some(c.id) && t.audit[|s.audit|].actor == c.who
    && t.audit[|s.audit|].tenant == c.tenant
    && t.audit[|s.audit|].correlation == RecordedCorrelation(correlation)
    && |t.outbox| == |s.outbox| + |payloads| && s.outbox <= t.outbox
    && (forall x :: 0 <= x < |payloads| ==>
          Carries(t.outbox, Positions(|s.outbox|, |payloads|)[x], c, payloads[x], correlation))
    && t.visible == s.visible + Elements(Positions(|s.outbox|, |payloads|))
    && t.published == s.published && t.bus == s.bus && t.batch == s.batch && t.marking == s.marking
    && t.calls == s.calls && t.badMarks == s.badMarks
    && Quiet(t)
    && t.clock >= s.clock && t.nextId >= s.nextId
    && c.id in s.log && t.log.Keys == s.log.Keys
    && (forall j :: j in s.log && j != c.id ==> t.log[j] == s.log[j])
    && |t.log[c.id]| == |s.log[c.id]| + 1 && s.log[c.id] <= t.log[c.id]
  }

  /** The state before the first insert: the row is written and locked, the audit row is recorded. */
  ghost function Recorded(s: Sys, c: PatchCall): Sys
    requires Writes(s, c)
  {
    DoRecord(DoLock(DoReadPrior(s, c), PatchTxFor(s, c)), c.id)
  }

  /** The lock-holding transaction of a Patch that runs alone. */
  ghost function Holder(s: Sys, c: PatchCall): Open
    requires Writes(s, c)
  {
    LockedBy(PatchTxFor(s, c), s.incidents[c.id])
  }

  lemma {:induction false} HolderFacts(s: Sys, c: PatchCall)
    requires TablesOk(s) && Writes(s, c)
    ensures
      var o := Holder(s, c);
      var plan := PatchPlan(s, c).value;
      && o.row == ApplyUpdate(s.incidents[c.id], plan.upd)
      && o.row.id == c.id && o.row.tenant == c.tenant
      && o.payloads == PatchPayloads(plan, FromRow(o.row))
      && o.who == c.who && o.correlation == CorrelationFor(c.correlation, s.nextId)
      && o.plan == Some(plan) && o.staged == [] && o.audit.None?
      && |o.todo| == |o.payloads| == EventCount(plan)
      && forall x :: 0 <= x < |o.todo| ==> o.todo[x].Fresh?
  {
    hide OutboxOk, OpensOk, PlannedOk, RowsFromThePast, HistoryOk, PlanPatch, FromRow;
    PlanNamesIncident(s, c);
    IncidentInHistory(s, c.id);
  }

  lemma {:induction false} RecordedForm(s: Sys, c: PatchCall)
    requires Quiet(s) && Writes(s, c)
    ensures
      var read := DoReadPrior(s, c);
      var o := Holder(s, c);
      Recorded(s, c) == s.(
        open := map[c.id := o.(audit := Some(AuditFor(o, read.nextId, read.clock)))],
        clock := read.clock + 1, nextId := read.nextId + 1)
  {
    hide Writes, AuditFor, PatchTxFor, LockedBy;
    var tx := PatchTxFor(s, c);
    PlanNamesIncident(s, c);
    assert PatchTxFor(s, c).id == c.id by {
      TxNamesIncident(s, c);
    }
    assert s.planned + {tx} - {tx} == {};
  }

  lemma {:induction false} TxNamesIncident(s: Sys, c: PatchCall)
    requires Writes(s, c)
    ensures PatchTxFor(s, c).id == c.id
  {
  }

  lemma {:induction false} RecordedRun(s: Sys, c: PatchCall)
    requires TablesOk(s) && Quiet(s) && Writes(s, c)
    ensures
      var acts := [ReadPrior(c), Lock(PatchTxFor(s, c)), Record(c.id)];
      Exec(s, acts) == Some(Recorded(s, c)) && TablesOk(Recorded(s, c))
  {
    hide TablesOk, AuditFor, LockedBy, PatchTxFor, Writes;
    var a1, a2, a3 := ReadPrior(c), Lock(PatchTxFor(s, c)), Record(c.id);
    PlanNamesIncident(s, c);
    TxNamesIncident(s, c);
    LockedByFresh(s, c);
    var s1 := DoReadPrior(s, c);
    var s2 := DoLock(s1, PatchTxFor(s, c));
    StepKeepsTables(s, a1);
    StepKeepsTables(s1, a2);
    StepKeepsTables(s2, a3);
    assert Exec(s, []) == Some(s);
    ExecSnoc(s, [], a1);
    assert [] + [a1] == [a1];
    ExecSnoc(s, [a1], a2);
    assert [a1] + [a2] == [a1, a2];
    ExecSnoc(s, [a1, a2], a3);
    assert [a1, a2] + [a3] == [a1, a2, a3];
  }

  lemma {:induction false} LockedByFresh(s: Sys, c: PatchCall)
    requires Writes(s, c)
    ensures LockedBy(PatchTxFor(s, c), s.incidents[c.id]).audit.None?
  {
  }

  lemma {:induction false} PlanNamesIncident(s: Sys, c: PatchCall)
    requires Writes(s, c)
    ensures c.id in s.incidents && s.incidents[c.id].tenant == c.tenant
  {
  }

  /** The commit of a transaction whose events all sit behind the table. */
  lemma {:induction false} PatchedByCommit(s: Sys, c: PatchCall, t: Sys)
    requires TablesOk(s) && Quiet(s) && Writes(s, c)
    requires c.id in Recorded(s, c).open
    requires |Recorded(s, c).open[c.id].todo| == |Recorded(s, c).open[c.id].payloads|
    requires Inserted(Recorded(s, c), t, c.id, |Recorded(s, c).open[c.id].todo|)
    requires CanCommit(t, c.id)
    ensures PatchedAlone(s, DoCommit(t, c.id), c)
  {
    hide TablesOk, PatchPlan, PatchPayloads, ApplyUpdate, FromRow, UniqueExternal, StagedOk, Holder, Recorded,
         PatchTxFor, EventCount;
    PlanNamesIncident(s, c);
    HasHistory(s, c.id);
    HolderFacts(s, c);
    RecordedForm(s, c);
    var o := Recorded(s, c).open[c.id];
    forall x | 0 <= x < |o.payloads|
      ensures Carries(t.outbox, Positions(|s.outbox|, |o.payloads|)[x], c, o.payloads[x], o.correlation)
    {
      assert RowWritten(t.outbox, |s.outbox|, o, x);
    }
    AuditActionOf(PatchPlan(s, c).value);
    assert s.open - {c.id} == map[];
  }

  lemma {:induction false} HasHistory(s: Sys, i: Uuid)
    requires TablesOk(s) && i in s.incidents
    ensures s.log.Keys == s.incidents.Keys && i in s.log
  {
    hide OutboxOk, OpensOk, PlannedOk, RowsFromThePast, Explains, Committed, SuccessRows;
  }

  lemma {:induction false} AuditActionOf(plan: Plan)
    ensures AuditActionFor(Some(plan)) == if plan.StatusChanged() then StatusChangeAction else UpdateAction
  {
  }

  lemma {:induction false} CanCommitPatch(t: Sys, i: Uuid)
    requires TablesOk(t) && i in t.open && t.open[i].audit.Some? && t.open[i].todo == [] && t.open[i].plan.Some?
    ensures CanCommit(t, i) && Enabled(t, Commit(i)) && Apply(t, Commit(i)) == DoCommit(t, i)
  {
    hide TablesOk;
    StagedRows(t, i);
  }

  /** A Patch alone is a run of the machine, and leaves exactly its row, its audit row and its events. */
  lemma {:induction false} PatchAlone(s: Sys, c: PatchCall)
    requires TablesOk(s) && Quiet(s) && Writes(s, c)
    ensures Exec(s, PatchActions(s, c)).Some?
    ensures TablesOk(Exec(s, PatchActions(s, c)).value)
    ensures PatchedAlone(s, Exec(s, PatchActions(s, c)).value, c)
  {
    hide TablesOk, PatchedAlone, PatchPlan, PatchPayloads, PatchTxFor, Quiet, Inserted, Recorded, Writes, CanCommit,
         Enabled, Apply, DoCommit, EventCount, Holder, DoReadPrior, AuditFor, FromRow, ApplyUpdate;
    var opening := [ReadPrior(c), Lock(PatchTxFor(s, c)), Record(c.id)];
    var r := Recorded(s, c);
    RecordedRun(s, c);
    RecordedForm(s, c);
    HolderFacts(s, c);
    var n := |r.open[c.id].todo|;
    InsertRun(r, c.id, n);
    ExecConcat(s, opening, Enqueues(c.id, n));
    var t := Exec(r, Enqueues(c.id, n)).value;
    InsertedAll(r, t, c.id);
    CanCommitPatch(t, c.id);
    PatchedByCommit(s, c, t);
    StepKeepsTables(t, Commit(c.id));
    ExecSnoc(s, opening + Enqueues(c.id, n), Commit(c.id));
  }

  lemma {:induction false} InsertedAll(s: Sys, t: Sys, i: Uuid)
    requires i in s.open && |s.open[i].todo| == |s.open[i].payloads|
    requires Inserted(s, t, i, |s.open[i].todo|)
    ensures i in t.open && t.open[i].todo == [] && t.open[i].plan == s.open[i].plan && t.open[i].audit == s.open[i].audit
  {
  }

  /** What a successful Create leaves: one row, one audit row, one created event, and nothing else. */
  ghost predicate CreatedAlone(s: Sys, t: Sys, c: CreateCall) {
    var o := PreparedCreate(c, s.clock, s.nextId);
    var i := o.row.id;
    && i !in s.incidents
    && t.incidents == s.incidents[i := o.row]
    && |t.audit| == |s.audit| + 1 && s.audit <= t.audit
    && t.audit[|s.audit|].action == CreateAction && t.audit[|s.audit|].result == Success
    && t.audit[|s.audit|].target == Some(i) && t.audit[|s.audit|].actor == c.who
    && t.audit[|s.audit|].tenant == c.tenant
    && t.audit[|s.audit|].correlation == RecordedCorrelation(o.correlation)
    && t.outbox == s.outbox + [o.todo[0].row]
    && t.visible == s.visible + {|s.outbox|}
    && t.published == s.published && t.bus == s.bus && t.batch == s.batch && t.marking == s.marking
    && t.calls == s.calls && t.badMarks == s.badMarks
    && t.open == s.open && t.planned == s.planned
    && t.clock == s.clock + 3 && t.nextId == i + 3
    && i !in s.log && t.log.Keys == s.log.Keys + {i} && |t.log[i]| == 1
    && (forall j :: j in s.log ==> t.log[j] == s.log[j])
  }

  /** The steps of a Create that nothing interrupts. */
  function CreateActions(s: Sys, c: CreateCall): seq<Action> {
    var i := AfterCorrelation(c.correlation, s.nextId);
    [OpenCreate(c)] + [Record(i)] + [Enqueue(i)] + [Commit(i)]
  }

  lemma {:induction false} PreparedFacts(c: CreateCall, clock: Time, nextId: Uuid)
    ensures
      var o := PreparedCreate(c, clock, nextId);
      && o.row.id == AfterCorrelation(c.correlation, nextId) && o.row.id >= nextId && o.row.tenant == c.tenant
      && o.who == c.who && o.plan.None? && o.audit.None? && o.staged == []
      && |o.todo| == 1 && o.todo[0].Ready? && o.todo[0].row.eventId == o.row.id + 1
      && o.todo[0].row.body.WellFormed? && o.todo[0].row.About(o.row.id)
  {
  }

  /** After the row and the audit row. */
  lemma {:induction false} CreateRecorded(s: Sys, c: CreateCall)
    requires PreparedCreate(c, s.clock, s.nextId).row.id !in s.open
    ensures
      var o := PreparedCreate(c, s.clock, s.nextId);
      var i := o.row.id;
      var s1 := DoOpenCreate(s, c);
      && s1 == s.(open := s.open[i := o], clock := s.clock + 2, nextId := i + 2)
      && DoRecord(s1, i) == s1.(open := s.open[i := o.(audit := Some(AuditFor(o, i + 2, s.clock + 2)))],
                                clock := s.clock + 3, nextId := i + 3)
      && AuditFor(o, i + 2, s.clock + 2) ==
         AuditRow(i + 2, c.tenant, s.clock + 2, c.who, CreateAction, Some(i), Success,
                  RecordedCorrelation(o.correlation))
  {
    hide PreparedCreate;
    PreparedFacts(c, s.clock, s.nextId);
  }

  /** After the event: the transaction is complete and holds one staged row. */
  lemma {:induction false} CreateEnqueued(s: Sys, c: CreateCall, a: AuditRow)
    requires PreparedCreate(c, s.clock, s.nextId).row.id !in s.open
    ensures
      var o := PreparedCreate(c, s.clock, s.nextId);
      var i := o.row.id;
      var s2 := s.(open := s.open[i := o.(audit := Some(a))], clock := s.clock + 3, nextId := i + 3);
      && RowFor(s2, s2.open[i]) == o.todo[0].row
      && DoEnqueue(s2, i) ==
         s2.(open := s.open[i := o.(audit := Some(a), staged := [|s.outbox|], todo := [])],
             outbox := s.outbox + [o.todo[0].row])
  {
    hide PreparedCreate, UniqueExternal;
    PreparedFacts(c, s.clock, s.nextId);
    var o := PreparedCreate(c, s.clock, s.nextId);
    var i := o.row.id;
    var s2 := s.(open := s.open[i := o.(audit := Some(a))], clock := s.clock + 3, nextId := i + 3);
    var done := o.(audit := Some(a), staged := [|s.outbox|], todo := []);
    assert s2.open[i].staged + [|s.outbox|] == done.staged && s2.open[i].todo[1..] == done.todo;
    assert s2.open[i := done] == s.open[i := done];
  }

  /** After the commit. */
  lemma {:induction false} CreateCommitted(s: Sys, c: CreateCall, a: AuditRow)
    requires PreparedCreate(c, s.clock, s.nextId).row.id !in s.open
    requires PreparedCreate(c, s.clock, s.nextId).row.id !in s.incidents
    requires PreparedCreate(c, s.clock, s.nextId).row.id !in s.log
    requires a == AuditRow(a.id, c.tenant, a.occurredAt, c.who, CreateAction,
                           Some(PreparedCreate(c, s.clock, s.nextId).row.id), Success,
                           RecordedCorrelation(PreparedCreate(c, s.clock, s.nextId).correlation))
    ensures
      var o := PreparedCreate(c, s.clock, s.nextId);
      var i := o.row.id;
      var s2 := s.(open := s.open[i := o.(audit := Some(a))], clock := s.clock + 3, nextId := i + 3);
      var s3 := DoEnqueue(s2, i);
      && RowFor(s2, s2.open[i]) == o.todo[0].row
      && (UniqueExternal(s.incidents, o.row) ==> CanCommit(s3, i) && CreatedAlone(s, DoCommit(s3, i), c))
  {
    hide PreparedCreate, UniqueExternal, DoEnqueue;
    PreparedFacts(c, s.clock, s.nextId);
    CreateEnqueued(s, c, a);
    var o := PreparedCreate(c, s.clock, s.nextId);
    var i := o.row.id;
    assert Elements([|s.outbox|]) == {|s.outbox|};
    assert s.open[i := o.(audit := Some(a), staged := [|s.outbox|], todo := [])] - {i} == s.open;
  }

  /** The ids a Create draws are used nowhere. */
  lemma {:induction false} CreateIsNew(s: Sys, c: CreateCall)
    requires TablesOk(s)
    ensures
      var o := PreparedCreate(c, s.clock, s.nextId);
      && o.row.id !in s.incidents && o.row.id !in s.log && o.row.id !in s.open
      && o.todo != [] && o.todo[0].Ready?
      && forall k :: 0 <= k < |s.outbox| ==> s.outbox[k].eventId != o.todo[0].row.eventId
  {
    hide PlannedOk, RowsFromThePast, Explains, Committed, SuccessRows, PreparedCreate, OutboxOk, WritesOk, ProgressOk,
         AuditOk;
    OutboxBounds(s);
    PreparedFacts(c, s.clock, s.nextId);
  }

  /**
   * A Create whose external id is free is a run of the machine, whatever else is open, and
   * leaves exactly its row, audit row and event.
   */
  lemma {:induction false} CreateAlone(s: Sys, c: CreateCall)
    requires TablesOk(s) && ValidCreate(c.input)
    requires UniqueExternal(s.incidents, PreparedCreate(c, s.clock, s.nextId).row)
    ensures Exec(s, CreateActions(s, c)).Some?
    ensures CreatedAlone(s, Exec(s, CreateActions(s, c)).value, c)
  {
    hide TablesOk, PreparedCreate, AuditFor, CanCommit, DoOpenCreate, DoRecord, DoEnqueue, DoCommit,
         UniqueExternal, CreatedAlone, Exec;
    CreateIsNew(s, c);
    var o := PreparedCreate(c, s.clock, s.nextId);
    var i := o.row.id;
    PreparedFacts(c, s.clock, s.nextId);
    CreateRecorded(s, c);
    CreateCommitted(s, c, AuditFor(o, i + 2, s.clock + 2));
    CreateStaged(s, c);
    var s3 := DoEnqueue(DoRecord(DoOpenCreate(s, c), i), i);
    CommitStep(s3, i);
    ExecSnoc(s, [OpenCreate(c)] + [Record(i)] + [Enqueue(i)], Commit(i));
  }

  /** A Create up to its commit. */
  lemma {:induction false} CreateStaged(s: Sys, c: CreateCall)
    requires TablesOk(s) && ValidCreate(c.input)
    ensures
      var i := AfterCorrelation(c.correlation, s.nextId);
      && i == PreparedCreate(c, s.clock, s.nextId).row.id
      && i in DoOpenCreate(s, c).open && i in DoRecord(DoOpenCreate(s, c), i).open
      && DoRecord(DoOpenCreate(s, c), i).open[i].todo != []
      && Exec(s, [OpenCreate(c)] + [Record(i)] + [Enqueue(i)]) == Some(DoEnqueue(DoRecord(DoOpenCreate(s, c), i), i))
  {
    hide TablesOk, PreparedCreate, AuditFor, RowFor, DoOpenCreate, DoRecord, DoEnqueue, Exec, UniqueExternal;
    PreparedFacts(c, s.clock, s.nextId);
    CreateIsNew(s, c);
    CreateRecorded(s, c);
    var o := PreparedCreate(c, s.clock, s.nextId);
    var i := o.row.id;
    CreateEnqueued(s, c, AuditFor(o, i + 2, s.clock + 2));
    EmptyRun(s);
    ExecSnoc(s, [], OpenCreate(c));
    assert [] + [OpenCreate(c)] == [OpenCreate(c)];
    ExecSnoc(s, [OpenCreate(c)], Record(i));
    ExecSnoc(s, [OpenCreate(c)] + [Record(i)], Enqueue(i));
  }

  lemma {:induction false} EmptyRun(s: Sys)
    ensures Exec(s, []) == Some(s)
  {
  }
}
