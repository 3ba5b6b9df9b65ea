/**
 * Patches of one incident that do not overlap always find the status they read. Two that
 * read the same row break the status path when the first to commit changes the status and
 * the other names one, whatever the incident and whatever else they change.
 */
module Overlap {
  import opened Prelude
  import opened Lifecycle
  import opened Domain
  import opened Auth
  import opened Outbox
  import opened Machine
  import opened Tables
  import opened Delivery
  import opened Conservation
  import opened Guarantees
  import opened StatusPaths
  import opened Serial

  // ---- no overlap ----

  /** A Patch starts only when no other transaction on its incident is under way. */
  ghost predicate NoOverlap(s: Sys, a: Action) {
    a.ReadPrior? ==> a.patch.id !in s.open && forall tx :: tx in s.planned ==> tx.id != a.patch.id
  }

  /** The Patches of each incident run one after the other; anything else may interleave. */
  ghost predicate SerialRun(s: Sys, acts: seq<Action>)
    requires Exec(s, acts).Some?
  {
    acts == [] || (SerialRun(s, acts[..|acts| - 1])
                   && NoOverlap(Exec(s, acts[..|acts| - 1]).value, acts[|acts| - 1]))
  }

  /** A Patch that has read its row is alone on the incident, and the status is still the one it read. */
  ghost predicate SerialOk(s: Sys) {
    forall tx :: tx in s.planned ==>
      && tx.id in s.incidents && tx.id !in s.open
      && ReadsStatus(tx.plan, s.incidents[tx.id].status)
      && forall other :: other in s.planned && other.id == tx.id ==> other == tx
  }

  lemma {:induction false} ReadPriorReadsStatus(s: Sys, c: PatchCall)
    requires Writes(s, c)
    ensures PatchTxFor(s, c).id == c.id && c.id in s.incidents
    ensures ReadsStatus(PatchTxFor(s, c).plan, s.incidents[c.id].status)
  {
  }

  lemma {:induction false} StepKeepsSerial(s: Sys, a: Action)
    requires TablesOk(s) && SerialOk(s) && Enabled(s, a) && NoOverlap(s, a)
    ensures SerialOk(Apply(s, a)) && FreshStatus(s, a)
  {
    hide TablesOk, IsFetch, UniqueExternal, Writes, RowFor, LockedBy, AuditFor, PatchTxFor, ValidCreate, StagedOk,
         ReadsStatus, PreparedCreate;
    match a
    case OpenCreate(c) =>
      CreateIsNew(s, c);
    case ReadPrior(c) =>
      ReadPriorReadsStatus(s, c);
    case _ =>
  }

  /** When the Patches of each incident do not overlap, every UPDATE finds the status its Patch read. */
  lemma {:induction false} SerialRunsAreFresh(acts: seq<Action>)
    requires Exec(Init(), acts).Some? && SerialRun(Init(), acts)
    ensures FreshRun(Init(), acts) && SerialOk(Exec(Init(), acts).value)
  {
    hide Enabled, Apply, FreshStatus, TablesOk;
    if acts != [] {
      var n := |acts| - 1;
      SerialRunsAreFresh(acts[..n]);
      ReachableIsSound(acts[..n]);
      StepKeepsSerial(Exec(Init(), acts[..n]).value, acts[n]);
    }
  }

  /**
   * So in every run whose Patches of each incident do not overlap, the status_changed events
   * form a connected path from `new` to the row's status, with the lifecycle arithmetic on it.
   */
  lemma {:induction false} SerialStatusPath(acts: seq<Action>, i: Uuid)
    requires Exec(Init(), acts).Some? && SerialRun(Init(), acts)
    requires i in Exec(Init(), acts).value.incidents
    ensures
      var s := Exec(Init(), acts).value;
      var events := Committed(i, s.outbox, s.visible);
      var changes := StatusChanges(events);
      && Path(changes, New, s.incidents[i].status)
      && |changes| <= 5 + 4 * Reopens(changes)
      && (ClosedEvents(events) > 0 ==> |changes| >= 3 * ClosedEvents(events) + 1)
      && ClosedEvents(events) == ClosedReopens(changes) + (if s.incidents[i].status == Closed then 1 else 0)
  {
    hide Exec, Init, SerialRun, FreshRun, SerialOk, Path, StatusChanges, ClosedEvents, Committed, Reopens, ClosedReopens;
    SerialRunsAreFresh(acts);
    StatusEventsFormAPath(acts, i);
  }

  // ---- runs without an UPDATE stay fresh ----

  lemma {:induction false} FreshTail(s: Sys, acts: seq<Action>, more: seq<Action>)
    requires Exec(s, acts).Some? && FreshRun(s, acts) && Exec(s, acts + more).Some?
    requires forall x :: 0 <= x < |more| ==> !more[x].Lock?
    ensures FreshRun(s, acts + more)
  {
    hide Enabled, Apply;
    if more == [] {
      assert acts + more == acts;
    } else {
      var n := |more| - 1;
      assert (acts + more)[..|acts + more| - 1] == acts + more[..n];
      ExecPrefix(s, acts + more, |acts + more| - 1);
      FreshTail(s, acts, more[..n]);
    }
  }

  lemma {:induction false} OnlyEnqueues(i: Uuid, n: nat)
    ensures forall x :: 0 <= x < |Enqueues(i, n)| ==> Enqueues(i, n)[x] == Enqueue(i)
  {
    if n > 0 {
      OnlyEnqueues(i, n - 1);
    }
  }

  /** A Patch that runs alone validates against the row it then updates. */
  lemma {:induction false} PatchAloneIsFresh(s: Sys, c: PatchCall)
    requires TablesOk(s) && Quiet(s) && Writes(s, c)
    ensures Exec(s, PatchActions(s, c)).Some? && FreshRun(s, PatchActions(s, c))
  {
    hide Enabled, Apply, TablesOk, PatchTxFor, EventCount, PatchPlan, PatchedAlone, FreshStatus, Exec;
    PatchAlone(s, c);
    var acts := PatchActions(s, c);
    var opening := [ReadPrior(c), Lock(PatchTxFor(s, c))];
    var more := [Record(c.id)] + Enqueues(c.id, EventCount(PatchPlan(s, c).value)) + [Commit(c.id)];
    OnlyEnqueues(c.id, EventCount(PatchPlan(s, c).value));
    assert acts == opening + more;
    assert acts[..2] == opening;
    ExecPrefix(s, acts, 2);
    OpeningIsFresh(s, c);
    FreshTail(s, opening, more);
  }

  lemma {:induction false} OpeningIsFresh(s: Sys, c: PatchCall)
    requires Writes(s, c) && Exec(s, [ReadPrior(c), Lock(PatchTxFor(s, c))]).Some?
    ensures FreshRun(s, [ReadPrior(c), Lock(PatchTxFor(s, c))])
  {
    hide Enabled, Apply, Writes, PatchTxFor, ReadsStatus, DoReadPrior;
    var one, two := [ReadPrior(c)], [ReadPrior(c), Lock(PatchTxFor(s, c))];
    ReadPriorReadsStatus(s, c);
    assert two[..1] == one && one[..0] == [];
    assert Exec(s, []) == Some(s) && FreshRun(s, []);
    assert FreshRun(s, one);
    ReadPriorKeepsRows(s, c);
  }

  lemma {:induction false} ReadPriorKeepsRows(s: Sys, c: PatchCall)
    requires Writes(s, c)
    ensures Enabled(s, ReadPrior(c)) && Apply(s, ReadPrior(c)) == DoReadPrior(s, c)
    ensures DoReadPrior(s, c).incidents == s.incidents
  {
    hide Writes, PatchTxFor;
  }

  lemma {:induction false} FreshRunsKeepConnected(s: Sys, acts: seq<Action>)
    requires TablesOk(s) && OpenStatusOk(s) && AllConnected(s)
    requires Exec(s, acts).Some? && FreshRun(s, acts)
    ensures
      var t := Exec(s, acts).value;
      TablesOk(t) && OpenStatusOk(t) && AllConnected(t)
  {
    hide Enabled, Apply, FreshStatus, OpenStatusOk, AllConnected, TablesOk;
    if acts != [] {
      var n := |acts| - 1;
      FreshRunsKeepConnected(s, acts[..n]);
      var t := Exec(s, acts[..n]).value;
      StepKeepsTables(t, acts[n]);
      StepKeepsConnected(t, acts[n]);
    }
  }

  // ---- an overlap ----

  ghost function WithPlanned(s: Sys, tx: PatchTx): Sys {
    s.(planned := s.planned + {tx})
  }

  /** Steps of others do not depend on a Patch that has only read. */
  lemma {:induction false} StepBeside(s: Sys, a: Action, tx: PatchTx)
    requires Enabled(s, a) && a != Lock(tx) && a != Forget(tx)
    ensures Enabled(WithPlanned(s, tx), a) && Apply(WithPlanned(s, tx), a) == WithPlanned(Apply(s, a), tx)
  {
    hide Enabled, Apply, WithPlanned;
    if a.ReadPrior? || a.Lock? || a.Forget? {
      PlanningBeside(s, a, tx);
    } else if a.Fetch? || a.Skip? || a.Publish? || a.Mark? || a.Restart? {
      RelayBeside(s, a, tx);
    } else {
      WritingBeside(s, a, tx);
    }
  }

  lemma {:induction false} PlanningBeside(s: Sys, a: Action, tx: PatchTx)
    requires Enabled(s, a) && a != Lock(tx) && a != Forget(tx) && (a.ReadPrior? || a.Lock? || a.Forget?)
    ensures Enabled(WithPlanned(s, tx), a) && Apply(WithPlanned(s, tx), a) == WithPlanned(Apply(s, a), tx)
  {
    hide Writes, LockedBy, PatchTxFor;
    match a
    case ReadPrior(c) =>
      ReadBeside(s, c, tx);
      assert s.planned + {tx} + {PatchTxFor(s, c)} == s.planned + {PatchTxFor(s, c)} + {tx};
    case Lock(other) =>
      assert s.planned + {tx} - {other} == s.planned - {other} + {tx};
    case Forget(other) =>
      assert s.planned + {tx} - {other} == s.planned - {other} + {tx};
  }

  lemma {:induction false} RelayBeside(s: Sys, a: Action, tx: PatchTx)
    requires Enabled(s, a) && (a.Fetch? || a.Skip? || a.Publish? || a.Mark? || a.Restart?)
    ensures Enabled(WithPlanned(s, tx), a) && Apply(WithPlanned(s, tx), a) == WithPlanned(Apply(s, a), tx)
  {
    hide Enabled, Apply, WithPlanned;
    if a.Publish? {
      PublishBeside(s, a, tx);
    } else {
      QuietRelayBeside(s, a, tx);
    }
  }

  lemma {:induction false} PublishBeside(s: Sys, a: Action, tx: PatchTx)
    requires Enabled(s, a) && a.Publish?
    ensures Enabled(WithPlanned(s, tx), a) && Apply(WithPlanned(s, tx), a) == WithPlanned(Apply(s, a), tx)
  {
    hide Repeat;
    var t, u := DoPublish(s, a.ok, a.copies), DoPublish(WithPlanned(s, tx), a.ok, a.copies);
    assert u.bus == t.bus && u.batch == t.batch && u.calls == t.calls && u.marking == t.marking;
  }

  lemma {:induction false} QuietRelayBeside(s: Sys, a: Action, tx: PatchTx)
    requires Enabled(s, a) && (a.Fetch? || a.Skip? || a.Mark? || a.Restart?)
    ensures Enabled(WithPlanned(s, tx), a) && Apply(WithPlanned(s, tx), a) == WithPlanned(Apply(s, a), tx)
  {
    hide IsFetch, CanCommit, Writes, RowFor, ValidCreate, DoCommit, DoEnqueue, DoRecord, DoLock, DoReadPrior, DoOpenCreate,
         DoDeny, DoInsertMalformed, DoPublish;
  }

  lemma {:induction false} WritingBeside(s: Sys, a: Action, tx: PatchTx)
    requires Enabled(s, a) && !(a.ReadPrior? || a.Lock? || a.Forget?)
    requires !(a.Fetch? || a.Skip? || a.Publish? || a.Mark? || a.Restart?)
    ensures Enabled(WithPlanned(s, tx), a) && Apply(WithPlanned(s, tx), a) == WithPlanned(Apply(s, a), tx)
  {
    hide UniqueExternal, AuditFor, ValidCreate, StagedOk, PreparedCreate, EnvelopesAt, Elements, IsFetch, DoPublish,
         DoMark, DoRestart, DoLock, DoReadPrior, Writes;
  }

  lemma {:induction false} ReadBeside(s: Sys, c: PatchCall, tx: PatchTx)
    requires Writes(s, c)
    ensures Writes(WithPlanned(s, tx), c) && PatchTxFor(WithPlanned(s, tx), c) == PatchTxFor(s, c)
  {
  }

  lemma {:induction false} RunBeside(s: Sys, acts: seq<Action>, tx: PatchTx)
    requires Exec(s, acts).Some?
    requires forall x :: 0 <= x < |acts| ==> acts[x] != Lock(tx) && acts[x] != Forget(tx)
    ensures Exec(WithPlanned(s, tx), acts) == Some(WithPlanned(Exec(s, acts).value, tx))
  {
    hide Enabled, Apply, WithPlanned;
    if acts != [] {
      var n := |acts| - 1;
      RunBeside(s, acts[..n], tx);
      StepBeside(Exec(s, acts[..n]).value, acts[n], tx);
    }
  }

  /** The state in which a second Patch starts: the first one has drawn its stamp and its id. */
  ghost function Later(s: Sys, c: PatchCall): Sys
    requires Writes(s, c)
  {
    s.(clock := DoReadPrior(s, c).clock, nextId := DoReadPrior(s, c).nextId)
  }

  /** The second Patch plans the same change from the same row, with later stamps. */
  lemma {:induction false} LaterPlan(s: Sys, b: PatchCall, a: PatchCall)
    requires Writes(s, b) && Writes(s, a)
    ensures Writes(Later(s, b), a)
    ensures PatchPlan(Later(s, b), a).value.status == PatchPlan(s, a).value.status
    ensures PatchTxFor(Later(s, b), a) != PatchTxFor(s, b)
  {
    hide CanTransition, ChangedFields, FromRow;
    assert PatchTxFor(Later(s, b), a).plan.upd.updatedAt == Later(s, b).clock;
    assert PatchTxFor(s, b).plan.upd.updatedAt == s.clock;
  }

  /** b reads the row, a reads, writes and commits, then b writes over it and commits. */
  ghost function OverlapActions(s: Sys, a: PatchCall, b: PatchCall): seq<Action>
    requires Writes(s, b) && Writes(Later(s, b), a)
  {
    [ReadPrior(b)] + PatchActions(Later(s, b), a)
    + [Lock(PatchTxFor(s, b)), Record(b.id)] + Enqueues(b.id, EventCount(PatchPlan(s, b).value)) + [Commit(b.id)]
  }

  /** `a` is committed, and `b` has only read. */
  ghost predicate FirstDone(s: Sys, t: Sys, a: PatchCall, b: PatchCall)
    requires Writes(s, b) && Writes(Later(s, b), a)
  {
    && TablesOk(t) && AllConnected(t) && t.planned == {PatchTxFor(s, b)} && t.open == map[]
    && a.id in s.incidents && a.id in t.incidents
    && t.incidents[a.id] == ApplyUpdate(s.incidents[a.id], PatchPlan(Later(s, b), a).value.upd)
  }

  /** The run up to the commit of `a`. */
  lemma {:induction false} FirstCommits(s: Sys, a: PatchCall, b: PatchCall)
    requires TablesOk(s) && Quiet(s) && AllConnected(s) && Writes(s, a) && Writes(s, b)
    ensures Writes(Later(s, b), a)
    ensures
      var acts := [ReadPrior(b)] + PatchActions(Later(s, b), a);
      Exec(s, acts).Some? && FirstDone(s, Exec(s, acts).value, a, b)
  {
    hide Enabled, Apply, TablesOk, Exec, PatchTxFor, PatchActions, DoReadPrior, AllConnected, OpenStatusOk,
         FreshRun, PatchPlan, ApplyUpdate, PatchPayloads, Carries, EventCount;
    var u := Later(s, b);
    var tx := PatchTxFor(s, b);
    LaterPlan(s, b, a);
    var acts := PatchActions(u, a);
    PlanNamesIncident(s, a);
    LaterIsSound(s, b);
    PatchAlone(u, a);
    PatchAloneIsFresh(u, a);
    FreshRunsKeepConnected(u, acts);
    NoLockOf(u, a, tx);
    RunBeside(u, acts, tx);
    ReadPriorKeepsRows(s, b);
    ReadIsPlanned(s, b);
    EmptyRun(s);
    ExecSnoc(s, [], ReadPrior(b));
    assert [] + [ReadPrior(b)] == [ReadPrior(b)];
    ExecConcat(s, [ReadPrior(b)], acts);
    StepKeepsTables(s, ReadPrior(b));
    StaysTables(s, b, acts);
    SameConnections(Exec(u, acts).value, tx);
  }

  lemma {:induction false} StaysTables(s: Sys, b: PatchCall, acts: seq<Action>)
    requires Writes(s, b) && TablesOk(DoReadPrior(s, b)) && Exec(DoReadPrior(s, b), acts).Some?
    ensures TablesOk(Exec(DoReadPrior(s, b), acts).value)
  {
    hide TablesOk, Enabled, Apply, DoReadPrior, Writes;
    if acts != [] {
      StaysTables(s, b, acts[..|acts| - 1]);
      StepKeepsTables(Exec(DoReadPrior(s, b), acts[..|acts| - 1]).value, acts[|acts| - 1]);
    }
  }

  lemma {:induction false} SameConnections(t: Sys, tx: PatchTx)
    requires AllConnected(t)
    ensures AllConnected(WithPlanned(t, tx))
  {
    hide Path, StatusChanges, Committed;
    forall i | i in t.incidents
      ensures Connected(WithPlanned(t, tx), i)
    {
      assert Connected(t, i);
    }
  }

  lemma {:induction false} ReadIsPlanned(s: Sys, b: PatchCall)
    requires Quiet(s) && Writes(s, b)
    ensures DoReadPrior(s, b) == WithPlanned(Later(s, b), PatchTxFor(s, b))
  {
    hide Writes, PatchTxFor;
  }

  /** Time may pass. */
  lemma {:induction false} LaterIsSound(s: Sys, b: PatchCall)
    requires TablesOk(s) && Quiet(s) && AllConnected(s) && Writes(s, b)
    ensures TablesOk(Later(s, b)) && Quiet(Later(s, b)) && AllConnected(Later(s, b)) && OpenStatusOk(Later(s, b))
  {
    hide TablesOk, Writes, PatchTxFor, Path, StatusChanges, Committed;
    var u := Later(s, b);
    StepKeepsTables(s, Tick(u.clock - s.clock, u.nextId - s.nextId));
    forall i | i in u.incidents
      ensures Connected(u, i)
    {
      assert Connected(s, i);
    }
  }

  lemma {:induction false} NoLockOf(u: Sys, a: PatchCall, tx: PatchTx)
    requires Writes(u, a) && PatchTxFor(u, a) != tx
    ensures forall x :: 0 <= x < |PatchActions(u, a)| ==>
              PatchActions(u, a)[x] != Lock(tx) && PatchActions(u, a)[x] != Forget(tx)
  {
    hide PatchTxFor, EventCount, PatchPlan;
    OnlyEnqueues(a.id, EventCount(PatchPlan(u, a).value));
  }

  /** The UPDATE of a planned Patch on a quiet table, up to its commit. */
  lemma {:induction false} SecondCommits(t: Sys, tx: PatchTx)
    requires TablesOk(t) && AllConnected(t) && tx in t.planned && t.open == map[] && tx.id in t.incidents
    ensures
      var acts := [Lock(tx), Record(tx.id)] + Enqueues(tx.id, EventCount(tx.plan)) + [Commit(tx.id)];
      && Exec(t, acts).Some?
      && tx.id in Exec(t, acts).value.incidents
      && (Connected(Exec(t, acts).value, tx.id) <==> ReadsStatus(tx.plan, t.incidents[tx.id].status))
  {
    hide Enabled, Apply, TablesOk, Exec, AllConnected, Connected, ReadsStatus, EventCount, Inserted, CanCommit, DoCommit;
    var i := tx.id;
    var r := DoRecord(DoLock(t, tx), i);
    LockAndRecord(t, tx);
    var n := EventCount(tx.plan);
    InsertRun(r, i, n);
    var u := Exec(r, Enqueues(i, n)).value;
    InsertedAll(r, u, i);
    InsertedKeeps(r, u, i, n);
    CanCommitPatch(u, i);
    AppendKeepsConnected(t, u);
    CommitNeedsStatus(t, u, i);
    ExecConcat(t, [Lock(tx), Record(i)], Enqueues(i, n));
    ExecSnoc(t, [Lock(tx), Record(i)] + Enqueues(i, n), Commit(i));
  }

  lemma {:induction false} CommitNeedsStatus(t: Sys, u: Sys, i: Uuid)
    requires TablesOk(u) && AllConnected(u) && CanCommit(u, i) && u.open[i].plan.Some? && i in u.incidents
    requires u.incidents == t.incidents
    ensures i in DoCommit(u, i).incidents
    ensures Connected(DoCommit(u, i), i) <==> ReadsStatus(u.open[i].plan.value, t.incidents[i].status)
  {
    hide TablesOk, Connected, DoCommit, ReadsStatus, CanCommit;
    CommitKeepsConnection(u, i);
  }

  lemma {:induction false} InsertedKeeps(r: Sys, u: Sys, i: Uuid, n: nat)
    requires i in r.open && n <= |r.open[i].todo| && |r.open[i].todo| <= |r.open[i].payloads|
    requires Inserted(r, u, i, n)
    ensures u.incidents == r.incidents && u.log == r.log
  {
  }

  lemma {:induction false} LockAndRecord(t: Sys, tx: PatchTx)
    requires TablesOk(t) && tx in t.planned && t.open == map[] && tx.id in t.incidents
    ensures
      var i := tx.id;
      var r := DoRecord(DoLock(t, tx), i);
      && Exec(t, [Lock(tx), Record(i)]) == Some(r) && TablesOk(r)
      && i in r.open && r.open[i].staged == [] && r.open[i].audit.Some? && r.open[i].plan == Some(tx.plan)
      && |r.open[i].todo| == |r.open[i].payloads| == EventCount(tx.plan)
      && (forall x :: 0 <= x < |r.open[i].todo| ==> r.open[i].todo[x].Fresh?)
      && r.incidents == t.incidents && r.log == t.log
  {
    hide TablesOk, AuditFor, FromRow, ApplyUpdate;
    var i := tx.id;
    var l := DoLock(t, tx);
    StepKeepsTables(t, Lock(tx));
    StepKeepsTables(l, Record(i));
    EmptyRun(t);
    ExecSnoc(t, [], Lock(tx));
    assert [] + [Lock(tx)] == [Lock(tx)];
    ExecSnoc(t, [Lock(tx)], Record(i));
    assert [Lock(tx)] + [Record(i)] == [Lock(tx), Record(i)];
  }

  /** The overlap, from any state with sound tables. */
  lemma {:induction false} OverlapDisconnects(s: Sys, a: PatchCall, b: PatchCall)
    requires TablesOk(s) && Quiet(s) && AllConnected(s)
    requires Writes(s, a) && Writes(s, b) && a.id == b.id
    requires PatchPlan(s, a).value.StatusChanged() && PatchPlan(s, b).value.status.Some?
    ensures Writes(Later(s, b), a)
    ensures
      var acts := OverlapActions(s, a, b);
      && Exec(s, acts).Some?
      && a.id in Exec(s, acts).value.incidents && !Connected(Exec(s, acts).value, a.id)
  {
    hide Enabled, Apply, TablesOk, Exec, PatchTxFor, PatchActions, DoReadPrior, AllConnected, Connected,
         PatchPlan, EventCount;
    FirstCommits(s, a, b);
    LaterPlan(s, b, a);
    var tx := PatchTxFor(s, b);
    var first := [ReadPrior(b)] + PatchActions(Later(s, b), a);
    var t := Exec(s, first).value;
    TxPlan(s, b);
    SecondCommits(t, tx);
    var second := [Lock(tx), Record(tx.id)] + Enqueues(tx.id, EventCount(tx.plan)) + [Commit(tx.id)];
    ExecConcat(s, first, second);
    assert first + second == OverlapActions(s, a, b);
    StatusMoved(s, a, Later(s, b));
  }

  /**
   * Two Patches of one incident that read the same row: when the first to commit changes
   * the status and the other names one, the announced changes no longer lead to the status.
   * It takes one such overlap after any run without.
   */
  lemma {:induction false} OverlapBreaksPath(before: seq<Action>, a: PatchCall, b: PatchCall) returns (acts: seq<Action>)
    requires Exec(Init(), before).Some? && SerialRun(Init(), before)
    requires
      var s := Exec(Init(), before).value;
      && Quiet(s) && Writes(s, a) && Writes(s, b) && a.id == b.id
      && PatchPlan(s, a).value.StatusChanged() && PatchPlan(s, b).value.status.Some?
    ensures before <= acts && Exec(Init(), acts).Some?
    ensures a.id in Exec(Init(), acts).value.incidents && !Connected(Exec(Init(), acts).value, a.id)
  {
    hide TablesOk, Exec, Init, OverlapActions, Connected, AllConnected, OpenStatusOk, FreshRun, SerialRun, SerialOk,
         DeliveryOk, CountsOk, Quiet, PatchPlan;
    var s := Exec(Init(), before).value;
    ReachableIsSound(before);
    SerialRunsAreFresh(before);
    FreshRunsConnect(before);
    OverlapDisconnects(s, a, b);
    ExecConcat(Init(), before, OverlapActions(s, a, b));
    acts := before + OverlapActions(s, a, b);
  }

  lemma {:induction false} TxPlan(s: Sys, b: PatchCall)
    requires Writes(s, b)
    ensures PatchTxFor(s, b).id == b.id && PatchTxFor(s, b).plan == PatchPlan(s, b).value
    ensures PatchPlan(s, b).value.status.Some? ==>
              b.id in s.incidents && PatchPlan(s, b).value.status.value.from == s.incidents[b.id].status
  {
  }

  lemma {:induction false} StatusMoved(s: Sys, a: PatchCall, u: Sys)
    requires Writes(s, a) && Writes(u, a) && u.incidents == s.incidents
    requires PatchPlan(s, a).value.StatusChanged()
    ensures a.id in s.incidents
    ensures ApplyUpdate(s.incidents[a.id], PatchPlan(u, a).value.upd).status != s.incidents[a.id].status
  {
  }

  /** Such runs exist from the empty database on: the guarantee really needs serial Patches. */
  lemma {:induction false} OverlapHappens() returns (acts: seq<Action>, i: Uuid)
    ensures Exec(Init(), acts).Some? && i in Exec(Init(), acts).value.incidents
    ensures !Connected(Exec(Init(), acts).value, i)
  {
    hide Enabled, Apply, TablesOk, Exec, OverlapActions, Connected, AllConnected, OpenStatusOk, FreshRun, CreateActions,
         DeliveryOk, CountsOk, Writes, PatchPlan;
    var who := Principal("user", "ada");
    var c := CreateCall(who, 1, CreateInput(None, "disk full", None, High, None, None, None, None), 1);
    InitFacts(c);
    CreateAlone(Init(), c);
    var create := CreateActions(Init(), c);
    var s := Exec(Init(), create).value;
    CreateIsSerial(c);
    i := PreparedCreate(c, 1, 1).row.id;
    var named := PatchInput(None, None, None, Some(Triaged), None, None, None);
    var a := PatchCall(who, 1, i, named, true, 1);
    var b := a.(input := named.(status := Some(New)));
    NewIncidentPatches(s, c, a, b);
    acts := OverlapBreaksPath(create, a, b);
  }

  lemma {:induction false} InitFacts(c: CreateCall)
    ensures TablesOk(Init()) && Quiet(Init())
    ensures UniqueExternal(Init().incidents, PreparedCreate(c, Init().clock, Init().nextId).row)
  {
    hide TablesOk;
    InitKeepsTables();
  }

  lemma {:induction false} CreateIsSerial(c: CreateCall)
    requires Exec(Init(), CreateActions(Init(), c)).Some?
    ensures SerialRun(Init(), CreateActions(Init(), c))
  {
    NoReadsAreSerial(Init(), CreateActions(Init(), c));
  }

  lemma {:induction false} NoReadsAreSerial(s: Sys, acts: seq<Action>)
    requires Exec(s, acts).Some? && forall x :: 0 <= x < |acts| ==> !acts[x].ReadPrior?
    ensures SerialRun(s, acts)
  {
    hide Enabled, Apply;
    if acts != [] {
      NoReadsAreSerial(s, acts[..|acts| - 1]);
    }
  }

  /** A new incident may be triaged, or told again that it is new. */
  lemma {:induction false} NewIncidentPatches(s: Sys, c: CreateCall, a: PatchCall, b: PatchCall)
    requires CreatedAlone(Init(), s, c)
    requires a.id == b.id == PreparedCreate(c, 1, 1).row.id && a.tenant == b.tenant == c.tenant
    requires a.input == PatchInput(None, None, None, Some(Triaged), None, None, None)
    requires b.input == PatchInput(None, None, None, Some(New), None, None, None)
    ensures Writes(s, a) && Writes(s, b)
    ensures PatchPlan(s, a).value.StatusChanged() && PatchPlan(s, b).value.status.Some?
  {
    assert s.incidents[a.id].status == New;
  }
}
