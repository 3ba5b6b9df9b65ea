/** Where every commit comes from: in every run, each logged row goes back to the request that made it. */
module Origins {
  import opened Prelude
  import opened Lifecycle
  import opened Domain
  import opened Auth
  import opened Outbox
  import opened Machine
  import opened Tables
  import opened Delivery
  import opened Conservation
  import opened Guarantees
  import opened Serial
  import opened Requests

  /** A given correlation id is used, and some id always is. */
  predicate Carried(given: Uuid, used: Uuid) {
    used != NIL_UUID && (given != NIL_UUID ==> used == given)
  }

  /** The update and the status change a Patch asks for; equal titles and tags may be left out. */
  predicate PlanAsked(plan: Plan, p: PatchInput) {
    && plan.upd.description == p.description && plan.upd.severity == p.severity && plan.upd.status == p.status
    && plan.upd.assignee == p.assignee && plan.upd.attributes == p.attributes
    && plan.upd.title in {None, p.title} && plan.upd.tags in {None, p.tags}
    && (plan.status.Some? ==> Some(plan.status.value.to) == p.status)
  }

  /** The action is the request this planned Patch, this open transaction, this logged commit goes back to. */
  ghost predicate AskedPlan(a: Action, tx: PatchTx) {
    && a.ReadPrior? && a.patch.id == tx.id && a.patch.who == tx.who && Carried(a.patch.correlation, tx.correlation)
    && PlanAsked(tx.plan, a.patch.input)
  }

  ghost predicate AskedCreate(a: Action, r: IncidentRow, payload: Payload, who: Principal, correlation: Uuid) {
    && a.OpenCreate? && RowFromInput(r, a.create.input, a.create.tenant)
    && payload.Created? && SnapshotFromInput(payload.snapshot, a.create.input, a.create.tenant)
    && a.create.who == who && Carried(a.create.correlation, correlation)
  }

  ghost predicate AskedOpen(a: Action, o: Open) {
    if o.plan.None? then
      |o.payloads| == 1 && AskedCreate(a, o.row, o.payloads[0], o.who, o.correlation)
    else
      && a.ReadPrior? && a.patch.id == o.row.id && a.patch.who == o.who && Carried(a.patch.correlation, o.correlation)
      && PlanAsked(o.plan.value, a.patch.input)
  }

  /** One commit and its request: fields, actor, and one correlation id on the audit row and on every event. */
  ghost predicate AskedEntry(a: Action, e: Entry) {
    && e.events != [] && e.audit.actor == e.events[0].actor
    && (forall x :: 0 <= x < |e.events| ==>
          e.events[x].correlation == e.events[0].correlation && e.audit.correlation == Some(e.events[x].correlation))
    && (if e.plan.None? then
          AskedCreate(a, e.row, e.events[0].payload, e.audit.actor, e.events[0].correlation)
        else
          && a.ReadPrior? && a.patch.id == e.row.id && a.patch.who == e.audit.actor
          && Carried(a.patch.correlation, e.events[0].correlation) && PlanAsked(e.plan.value, a.patch.input))
  }

  ghost predicate PlansAsked(planned: set<PatchTx>, acts: seq<Action>) {
    forall tx :: tx in planned ==> exists n :: 0 <= n < |acts| && AskedPlan(acts[n], tx)
  }

  ghost predicate OpensAsked(open: map<Uuid, Open>, acts: seq<Action>) {
    forall i :: i in open ==> exists n :: 0 <= n < |acts| && AskedOpen(acts[n], open[i])
  }

  ghost predicate EntryAsked(e: Entry, acts: seq<Action>) {
    exists n :: 0 <= n < |acts| && AskedEntry(acts[n], e)
  }

  ghost predicate LogsAsked(log: map<Uuid, seq<Entry>>, acts: seq<Action>) {
    forall i, k :: i in log && 0 <= k < |log[i]| ==> EntryAsked(log[i][k], acts)
  }

  ghost predicate OriginsOk(s: Sys, acts: seq<Action>) {
    PlansAsked(s.planned, acts) && OpensAsked(s.open, acts) && LogsAsked(s.log, acts)
  }

  lemma {:induction false} MoreActions(s: Sys, acts: seq<Action>, a: Action)
    requires OriginsOk(s, acts)
    ensures OriginsOk(s, acts + [a])
  {
    MorePlans(s.planned, acts, a);
    MoreOpens(s.open, acts, a);
    MoreLogs(s.log, acts, a);
  }

  lemma {:induction false} MorePlans(planned: set<PatchTx>, acts: seq<Action>, a: Action)
    requires PlansAsked(planned, acts)
    ensures PlansAsked(planned, acts + [a])
  {
    hide AskedPlan;
    forall tx | tx in planned
      ensures exists n :: 0 <= n < |acts + [a]| && AskedPlan((acts + [a])[n], tx)
    {
      var n :| 0 <= n < |acts| && AskedPlan(acts[n], tx);
      assert (acts + [a])[n] == acts[n];
    }
  }

  lemma {:induction false} MoreOpens(open: map<Uuid, Open>, acts: seq<Action>, a: Action)
    requires OpensAsked(open, acts)
    ensures OpensAsked(open, acts + [a])
  {
    hide AskedOpen;
    forall i | i in open
      ensures exists n :: 0 <= n < |acts + [a]| && AskedOpen((acts + [a])[n], open[i])
    {
      var n :| 0 <= n < |acts| && AskedOpen(acts[n], open[i]);
      assert (acts + [a])[n] == acts[n];
    }
  }

  lemma {:induction false} MoreLogs(log: map<Uuid, seq<Entry>>, acts: seq<Action>, a: Action)
    requires LogsAsked(log, acts)
    ensures LogsAsked(log, acts + [a])
  {
    hide AskedEntry;
    forall i, k | i in log && 0 <= k < |log[i]|
      ensures EntryAsked(log[i][k], acts + [a])
    {
      var n :| 0 <= n < |acts| && AskedEntry(acts[n], log[i][k]);
      assert (acts + [a])[n] == acts[n];
    }
  }

  // ---- one step ----

  lemma {:induction false} CreateAsked(s: Sys, c: CreateCall)
    requires s.nextId > NIL_UUID
    ensures AskedOpen(OpenCreate(c), PreparedCreate(c, s.clock, s.nextId))
  {
  }

  lemma {:induction false} PatchAsked(s: Sys, c: PatchCall)
    requires s.nextId > NIL_UUID && Writes(s, c)
    ensures AskedPlan(ReadPrior(c), PatchTxFor(s, c))
  {
    hide CanTransition, ChangedFields;
  }

  lemma {:induction false} LockAsked(s: Sys, a: Action, tx: PatchTx)
    requires AskedPlan(a, tx) && tx.id in s.incidents && s.incidents[tx.id].id == tx.id
    ensures AskedOpen(a, LockedBy(tx, s.incidents[tx.id]))
  {
    hide PlanAsked, PatchPayloads, FromRow;
  }

  lemma {:induction false} SameAsked(a: Action, o: Open, o': Open)
    requires o'.row == o.row && o'.who == o.who && o'.correlation == o.correlation && o'.plan == o.plan
    requires o'.payloads == o.payloads
    ensures AskedOpen(a, o') == AskedOpen(a, o)
  {
    hide AskedCreate, PlanAsked;
  }

  /** What a commit logs is what its transaction held. */
  lemma {:induction false} CommitAsked(s: Sys, i: Uuid, a: Action)
    requires TablesOk(s) && CanCommit(s, i) && AskedOpen(a, s.open[i])
    ensures AskedEntry(a, NewEntry(s, i))
  {
    hide OutboxOk, HistoryOk, PlannedOk, RowsFromThePast, DraftOk, UniqueExternal, Increasing, AskedCreate, PlanAsked,
         FirstRow, PatchPayloads, ApplyUpdate, FromRow, Normal, PlanOk;
    var o := s.open[i];
    var e := NewEntry(s, i);
    assert OpenOk(i, o, s.incidents, s.outbox, s.visible, s.clock, s.nextId);
    NewEntryOk(s, i);
    EntryHasEvents(e);
    forall x | 0 <= x < |e.events|
      ensures WrittenBy(e.events[x], o, x)
    {
      assert WrittenBy(s.outbox[o.staged[x]].body.env, o, x);
    }
    assert WrittenBy(e.events[0], o, 0);
    assert e.audit == AuditFor(o, e.audit.id, e.audit.occurredAt);
    assert e.audit.correlation == RecordedCorrelation(o.correlation);
    assert o.correlation != NIL_UUID by {
      AskedHasId(a, o);
    }
    if o.plan.None? {
      assert AskedCreate(a, o.row, o.payloads[0], o.who, o.correlation);
    } else {
      assert a.patch.id == e.row.id;
    }
  }

  lemma {:induction false} AskedHasId(a: Action, o: Open)
    requires AskedOpen(a, o)
    ensures o.correlation != NIL_UUID
  {
  }

  lemma {:induction false} EntryHasEvents(e: Entry)
    requires EntryOk(e)
    ensures e.events != []
  {
    hide PlanOk, FromRow;
    if e.plan.Some? {
      assert |e.events| == |Payloads(e.events)|;
    }
  }

  lemma {:induction false} CommitKeepsOrigins(s: Sys, i: Uuid, acts: seq<Action>)
    requires TablesOk(s) && CanCommit(s, i) && OriginsOk(s, acts)
    ensures OriginsOk(DoCommit(s, i), acts)
  {
    hide TablesOk, AskedPlan, AskedOpen, AskedEntry, UniqueExternal, StagedOk, EnvelopesAt;
    var t := DoCommit(s, i);
    var n :| 0 <= n < |acts| && AskedOpen(acts[n], s.open[i]);
    CommitAsked(s, i, acts[n]);
    forall j, k | j in t.log && 0 <= k < |t.log[j]|
      ensures EntryAsked(t.log[j][k], acts)
    {
      if j != i || (i in s.log && k < |s.log[i]|) {
        assert t.log[j][k] == s.log[j][k];
      } else {
        assert t.log[j][k] == NewEntry(s, i);
      }
    }
  }

  /** The transactions of t are those of s, but for the progress of one. */
  ghost predicate FewerAsked(s: Sys, t: Sys) {
    && t.planned <= s.planned && t.log == s.log
    && forall i :: i in t.open ==>
         && i in s.open
         && t.open[i] == s.open[i].(audit := t.open[i].audit, staged := t.open[i].staged, todo := t.open[i].todo)
  }

  lemma {:induction false} FewerKeepOrigins(s: Sys, t: Sys, acts: seq<Action>)
    requires OriginsOk(s, acts) && FewerAsked(s, t)
    ensures OriginsOk(t, acts)
  {
    hide AskedPlan, AskedOpen, AskedEntry;
    forall i | i in t.open
      ensures exists n :: 0 <= n < |acts| && AskedOpen(acts[n], t.open[i])
    {
      var n :| 0 <= n < |acts| && AskedOpen(acts[n], s.open[i]);
      SameAsked(acts[n], s.open[i], t.open[i]);
    }
  }

  lemma {:induction false} OtherStepsAskNothing(s: Sys, a: Action)
    requires Enabled(s, a) && !(a.OpenCreate? || a.ReadPrior? || a.Lock? || a.Commit?)
    ensures FewerAsked(s, Apply(s, a))
  {
    hide IsFetch, CanCommit, Writes, ValidCreate, RowFor, AuditFor, DoCommit, DoLock, DoReadPrior, DoOpenCreate, Repeat;
  }

  lemma {:induction false} StepKeepsOrigins(s: Sys, a: Action, acts: seq<Action>)
    requires TablesOk(s) && Enabled(s, a) && OriginsOk(s, acts)
    ensures OriginsOk(Apply(s, a), acts + [a])
  {
    hide TablesOk, OriginsOk, Enabled, Apply, FewerAsked;
    MoreActions(s, acts, a);
    if a.OpenCreate? {
      OpenKeepsOrigins(s, a.create, acts);
    } else if a.ReadPrior? {
      ReadKeepsOrigins(s, a.patch, acts);
    } else if a.Lock? {
      LockKeepsOrigins(s, a.tx, acts + [a]);
    } else if a.Commit? {
      CommitApplies(s, a.id);
      CommitKeepsOrigins(s, a.id, acts + [a]);
    } else {
      OtherStepsAskNothing(s, a);
      FewerKeepOrigins(s, Apply(s, a), acts + [a]);
    }
  }

  lemma {:induction false} CommitApplies(s: Sys, i: Uuid)
    requires Enabled(s, Commit(i))
    ensures CanCommit(s, i) && Apply(s, Commit(i)) == DoCommit(s, i)
  {
    hide CanCommit, DoCommit;
  }

  lemma {:induction false} OpenKeepsOrigins(s: Sys, c: CreateCall, acts: seq<Action>)
    requires TablesOk(s) && Enabled(s, OpenCreate(c)) && OriginsOk(s, acts + [OpenCreate(c)])
    ensures OriginsOk(Apply(s, OpenCreate(c)), acts + [OpenCreate(c)])
  {
    hide TablesOk, AskedPlan, AskedOpen, AskedEntry, PreparedCreate, ValidCreate;
    IdsAreDrawn(s);
    CreateAsked(s, c);
    var more := acts + [OpenCreate(c)];
    assert more[|acts|] == OpenCreate(c);
  }

  lemma {:induction false} ReadKeepsOrigins(s: Sys, c: PatchCall, acts: seq<Action>)
    requires TablesOk(s) && Enabled(s, ReadPrior(c)) && OriginsOk(s, acts + [ReadPrior(c)])
    ensures OriginsOk(Apply(s, ReadPrior(c)), acts + [ReadPrior(c)])
  {
    hide TablesOk, AskedPlan, AskedOpen, AskedEntry, PatchTxFor, Writes;
    IdsAreDrawn(s);
    PatchAsked(s, c);
    var more := acts + [ReadPrior(c)];
    assert more[|acts|] == ReadPrior(c);
  }

  lemma {:induction false} LockKeepsOrigins(s: Sys, tx: PatchTx, acts: seq<Action>)
    requires TablesOk(s) && Enabled(s, Lock(tx)) && OriginsOk(s, acts)
    ensures OriginsOk(Apply(s, Lock(tx)), acts)
  {
    hide OutboxOk, OpensOk, PlannedOk, RowsFromThePast, HistoryOk, AskedPlan, AskedOpen, AskedEntry, LockedBy;
    IncidentInHistory(s, tx.id);
    var n :| 0 <= n < |acts| && AskedPlan(acts[n], tx);
    LockAsked(s, acts[n], tx);
  }

  // ---- whole runs ----

  lemma {:induction false} RunsHaveOrigins(acts: seq<Action>)
    requires Exec(Init(), acts).Some?
    ensures OriginsOk(Exec(Init(), acts).value, acts)
  {
    hide TablesOk, DeliveryOk, CountsOk, Enabled, Apply, AskedPlan, AskedOpen, AskedEntry;
    if acts != [] {
      var n := |acts| - 1;
      RunsHaveOrigins(acts[..n]);
      ReachableIsSound(acts[..n]);
      StepKeepsOrigins(Exec(Init(), acts[..n]).value, acts[n], acts[..n]);
      assert acts == acts[..n] + [acts[n]];
    }
  }

  /** The row a Patch left, against the row before it and the request: given fields are written, others are as they were. */
  predicate RowFromPatch(before: IncidentRow, after: IncidentRow, p: PatchInput) {
    && after.description == (if p.description.Some? then p.description else before.description)
    && after.severity == (if p.severity.Some? then p.severity.value else before.severity)
    && after.status == (if p.status.Some? then p.status.value else before.status)
    && after.assignee == (if p.assignee.Some? then p.assignee else before.assignee)
    && after.attributes == (if p.attributes.Some? then p.attributes else before.attributes)
    && (after.title == before.title || Some(after.title) == p.title)
    && (after.tags == before.tags || after.tags == p.tags)
    && after.externalId == before.externalId && after.sourceConnector == before.sourceConnector
    && after.id == before.id && after.tenant == before.tenant && after.createdAt == before.createdAt
  }

  /**
   * In every run, however requests overlap: the first commit of an incident has the fields of a Create request of the run,
   * each later one those of a Patch request over the commit before it, with the request's actor and its
   * correlation id on the audit row and all events.
   */
  lemma {:induction false} EveryCommitWasAsked(acts: seq<Action>, i: Uuid, k: nat) returns (n: nat)
    requires Exec(Init(), acts).Some?
    requires i in Exec(Init(), acts).value.log && k < |Exec(Init(), acts).value.log[i]|
    ensures n < |acts|
    ensures
      var e := Exec(Init(), acts).value.log[i][k];
      && e.events != [] && e.audit.correlation == Some(e.events[0].correlation) && e.events[0].correlation != NIL_UUID
      && (forall x :: 0 <= x < |e.events| ==> e.events[x].correlation == e.events[0].correlation)
      && (k == 0 ==>
            && acts[n].OpenCreate? && acts[n].create.who == e.audit.actor
            && RowFromInput(e.row, acts[n].create.input, acts[n].create.tenant)
            && e.events[0].payload.Created?
            && SnapshotFromInput(e.events[0].payload.snapshot, acts[n].create.input, acts[n].create.tenant)
            && (acts[n].create.correlation != NIL_UUID ==> e.events[0].correlation == acts[n].create.correlation))
      && (k > 0 ==>
            && acts[n].ReadPrior? && acts[n].patch.id == i && acts[n].patch.who == e.audit.actor
            && RowFromPatch(Exec(Init(), acts).value.log[i][k - 1].row, e.row, acts[n].patch.input)
            && (acts[n].patch.correlation != NIL_UUID ==> e.events[0].correlation == acts[n].patch.correlation))
  {
    hide Exec, Init, OutboxOk, OpensOk, PlannedOk, RowsFromThePast, DeliveryOk, CountsOk, PlansAsked, OpensAsked, LogOk,
         RowFromInput, SnapshotFromInput, EntryOk;
    var s := Exec(Init(), acts).value;
    RunsHaveOrigins(acts);
    ReachableIsSound(acts);
    assert EntryAsked(s.log[i][k], acts);
    var m :| 0 <= m < |acts| && AskedEntry(acts[m], s.log[i][k]);
    n := m;
    InHistory(s, i);
    EntryAt(i, s.log[i], k);
    if k > 0 {
      FollowerOfPatch(s.log[i][k - 1].row, s.log[i][k], acts[n].patch.input);
    }
  }

  lemma {:induction false} InHistory(s: Sys, i: Uuid)
    requires TablesOk(s) && i in s.log
    ensures LogOk(i, s.log[i])
  {
    hide OutboxOk, OpensOk, PlannedOk, RowsFromThePast, LogOk;
    IncidentInHistory(s, i);
  }

  lemma {:induction false} EntryAt(i: Uuid, es: seq<Entry>, k: nat)
    requires LogOk(i, es) && k < |es|
    ensures EntryOk(es[k]) && es[k].row.id == i
    ensures k == 0 ==> es[k].plan.None?
    ensures k > 0 ==> Follows(es[k - 1].row, es[k])
  {
    hide EntryOk, Follows;
  }

  lemma {:induction false} FollowerOfPatch(before: IncidentRow, e: Entry, p: PatchInput)
    requires Follows(before, e) && PlanAsked(e.plan.value, p)
    ensures RowFromPatch(before, e.row, p)
  {
  }

  /** Every message on the bus has a correlation id. */
  lemma {:induction false} MessagesCorrelate(acts: seq<Action>, e: Envelope)
    requires Exec(Init(), acts).Some? && e in Exec(Init(), acts).value.bus
    ensures e.correlation != NIL_UUID
  {
    hide Exec, Init, OutboxOk, OpensOk, PlannedOk, RowsFromThePast, CountsOk, MarkedOk, BatchOk, OrderOk, PrefixOk, LogOk,
         Committed, EventsOf;
    var s := Exec(Init(), acts).value;
    ReachableIsSound(acts);
    var r: nat :| Holds(s.outbox, s.visible, r, e);
    CommittedContains(e.entity, s.outbox, s.visible, r);
    LoggedEvents(s, e.entity);
    var k := EntryOfEvent(s.log[e.entity], e);
    var n := EveryCommitWasAsked(acts, e.entity, k);
  }

  lemma {:induction false} LoggedEvents(s: Sys, i: Uuid)
    requires TablesOk(s) && Committed(i, s.outbox, s.visible) != []
    ensures i in s.log && Committed(i, s.outbox, s.visible) == EventsOf(s.log[i])
  {
    hide OutboxOk, OpensOk, PlannedOk, RowsFromThePast, LogOk, EventsOf, Committed;
    assert i in s.log;
    IncidentInHistory(s, i);
  }

  lemma {:induction false} EntryOfEvent(es: seq<Entry>, e: Envelope) returns (k: nat)
    requires e in EventsOf(es)
    ensures k < |es| && e in es[k].events
  {
    var n := |es| - 1;
    if e in es[n].events {
      k := n;
    } else {
      k := EntryOfEvent(es[..n], e);
    }
  }

  // ---- external ids ----

  /** Two incidents of one tenant and source connector never share an external id. */
  ghost predicate ExternalIdsUnique(incidents: map<Uuid, IncidentRow>) {
    forall i, j :: i in incidents && j in incidents && i != j
                   && incidents[i].externalId.Some? && incidents[i].sourceConnector.Some?
                   && incidents[i].tenant == incidents[j].tenant
                   && incidents[i].sourceConnector == incidents[j].sourceConnector ==>
                     incidents[i].externalId != incidents[j].externalId
  }

  lemma {:induction false} CommitKeepsUnique(s: Sys, i: Uuid)
    requires TablesOk(s) && CanCommit(s, i) && ExternalIdsUnique(s.incidents)
    ensures ExternalIdsUnique(DoCommit(s, i).incidents)
  {
    hide OutboxOk, PlannedOk, RowsFromThePast, HistoryOk, ProgressOk, AuditOk, StagedOk, PlanOk, FirstRow, PatchPayloads,
         FromRow, Normal, EnvelopesAt;
    assert OpenOk(i, s.open[i], s.incidents, s.outbox, s.visible, s.clock, s.nextId);
    var t := DoCommit(s, i);
    if s.open[i].plan.Some? {
      assert t.incidents[i].externalId == s.incidents[i].externalId && t.incidents[i].tenant == s.incidents[i].tenant
             && t.incidents[i].sourceConnector == s.incidents[i].sourceConnector;
    }
  }

  lemma {:induction false} OtherStepsKeepIncidents(s: Sys, a: Action)
    requires Enabled(s, a) && !a.Commit?
    ensures Apply(s, a).incidents == s.incidents
  {
    hide IsFetch, CanCommit, Writes, ValidCreate, RowFor, AuditFor, DoCommit, Repeat, PreparedCreate, PatchTxFor, LockedBy;
  }

  /** In every run the unique index holds: no two incidents of a tenant and connector have one external id. */
  lemma {:induction false} ExternalIdsStayUnique(acts: seq<Action>)
    requires Exec(Init(), acts).Some?
    ensures ExternalIdsUnique(Exec(Init(), acts).value.incidents)
  {
    hide TablesOk, DeliveryOk, CountsOk, Enabled, Apply, ExternalIdsUnique;
    if acts == [] {
      NoExternalIds();
    } else {
      var n := |acts| - 1;
      ExternalIdsStayUnique(acts[..n]);
      ReachableIsSound(acts[..n]);
      var s := Exec(Init(), acts[..n]).value;
      if acts[n].Commit? {
        CommitApplies(s, acts[n].id);
        CommitKeepsUnique(s, acts[n].id);
      } else {
        OtherStepsKeepIncidents(s, acts[n]);
      }
    }
  }

  lemma {:induction false} NoExternalIds()
    ensures ExternalIdsUnique(Init().incidents)
  {
  }
}
