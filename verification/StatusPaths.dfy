/**
 * Status changes over a run. Patch validates its move against a row it read without a
 * lock, so the status events of an incident connect exactly as long as every UPDATE that
 * names a status finds the status its Patch read. Patches of one incident that do not
 * overlap always do.
 */
module StatusPaths {
  import opened Prelude
  import opened Lifecycle
  import opened Domain
  import opened Outbox
  import opened Machine
  import opened Tables
  import opened History
  import opened Delivery
  import opened Conservation
  import opened Guarantees

  /** The plan names no status, or was validated against this one. */
  predicate ReadsStatus(plan: Plan, current: Status) {
    plan.status.Some? ==> plan.status.value.from == current
  }

  /** The UPDATE of a Patch finds the status it validated against. */
  ghost predicate FreshStatus(s: Sys, a: Action) {
    a.Lock? && a.tx.id in s.incidents ==> ReadsStatus(a.tx.plan, s.incidents[a.tx.id].status)
  }

  /** Every step of the run is taken with a fresh status. */
  ghost predicate FreshRun(s: Sys, acts: seq<Action>)
    requires Exec(s, acts).Some?
  {
    acts == [] || (FreshRun(s, acts[..|acts| - 1])
                   && FreshStatus(Exec(s, acts[..|acts| - 1]).value, acts[|acts| - 1]))
  }

  /** The row lock keeps the status a Patch found until it commits. */
  ghost predicate OpenStatusOk(s: Sys) {
    forall i :: i in s.open && i in s.incidents && s.open[i].plan.Some? ==>
      ReadsStatus(s.open[i].plan.value, s.incidents[i].status)
  }

  /** The changes announced for `i` lead from `new` to the status of its row. */
  ghost predicate Connected(s: Sys, i: Uuid)
    requires i in s.incidents
  {
    Path(StatusChanges(Committed(i, s.outbox, s.visible)), New, s.incidents[i].status)
  }

  ghost predicate AllConnected(s: Sys) {
    forall i :: i in s.incidents ==> Connected(s, i)
  }

  lemma {:induction false} ClosingsGrow(cs: seq<Change>, c: Change)
    ensures Closings(cs + [c]) == Closings(cs) + if c.to == Closed then 1 else 0
  {
    assert (cs + [c])[..|cs|] == cs;
  }

  /** A closed event accompanies exactly the announced changes to closed; this needs no serial Patches. */
  lemma {:induction false} ClosedEventsAreClosings(i: Uuid, es: seq<Entry>)
    requires es != [] && LogOk(i, es)
    ensures ClosedEvents(EventsOf(es)) == Closings(StatusChanges(EventsOf(es)))
  {
    hide LogOk, EntryOk, Follows, EventsOf, Snapshots, Listings, StatusChanges, ClosedEvents, Closings;
    LogLast(i, es);
    var before, last := es[..|es| - 1], es[|es| - 1];
    EntryReads(last);
    TwoParts(EventsOf(before), last.events);
    ClosingsOfOne(last);
    if |es| == 1 {
      NoEvents();
      NoChanges();
      assert before == [];
    } else {
      ClosedEventsAreClosings(i, before);
    }
    var cs := StatusChanges(EventsOf(before));
    assert cs + [] == cs;
    if Announced(last) != [] {
      ClosingsGrow(cs, Announced(last)[0]);
    }
  }

  lemma {:induction false} NoChanges()
    ensures StatusChanges([]) == [] && ClosedEvents([]) == 0 && Closings([]) == 0
  {
  }

  lemma {:induction false} PathGrows(cs: seq<Change>, end: Status, c: Change)
    requires Path(cs, New, end) && c.from != c.to && CanTransition(c.from, c.to)
    ensures Path(cs + [c], New, c.to) <==> c.from == end
  {
    assert (cs + [c])[..|cs|] == cs;
    PathEndUnique(cs, end, c.from);
  }

  lemma {:induction false} PathEndUnique(cs: seq<Change>, a: Status, b: Status)
    requires Path(cs, New, a)
    ensures Path(cs, New, b) <==> a == b
  {
  }

  /** The status a planned Patch leaves, and what its plan allows. */
  lemma {:induction false} StatusOfFollower(prev: IncidentRow, e: Entry)
    requires EntryOk(e) && Follows(prev, e)
    ensures e.plan.value.StatusChanged() ==> CanTransition(e.plan.value.status.value.from, e.plan.value.status.value.to)
    ensures e.row.status == if e.plan.value.status.Some? then e.plan.value.status.value.to else prev.status
  {
    hide PatchPayloads, FromRow;
  }

  /** The events and the row of `i` after the commit of a Patch on it. */
  lemma {:induction false} PatchCommitReads(s: Sys, i: Uuid)
    requires TablesOk(s) && CanCommit(s, i) && s.open[i].plan.Some? && i in s.incidents
    ensures
      var s' := DoCommit(s, i);
      var plan := s.open[i].plan.value;
      && i in s'.incidents
      && (plan.StatusChanged() ==> CanTransition(plan.status.value.from, plan.status.value.to))
      && StatusChanges(Committed(i, s'.outbox, s'.visible)) ==
         StatusChanges(Committed(i, s.outbox, s.visible))
         + (if plan.StatusChanged() then [plan.status.value] else [])
      && s'.incidents[i].status == (if plan.status.Some? then plan.status.value.to else s.incidents[i].status)
  {
    hide TablesOk, Committed, StatusChanges, ClosedEvents, Snapshots, Listings, SuccessRows, UniqueExternal,
         PatchPayloads, EntryOk, Follows, Normal, FromRow, StagedOk;
    CommitReads(s, i, i);
    NewEntryOk(s, i);
    EntryReads(NewEntry(s, i));
    StatusOfFollower(s.incidents[i], NewEntry(s, i));
    TwoParts(Committed(i, s.outbox, s.visible), NewEntry(s, i).events);
  }

  /** One more announced change, or none, against the status it leads to. */
  lemma {:induction false} PathStep(cs: seq<Change>, current: Status, plan: Plan)
    requires Path(cs, New, current)
    requires plan.StatusChanged() ==> CanTransition(plan.status.value.from, plan.status.value.to)
    ensures
      var next := if plan.status.Some? then plan.status.value.to else current;
      Path(cs + (if plan.StatusChanged() then [plan.status.value] else []), New, next) <==> ReadsStatus(plan, current)
  {
    hide Path, CanTransition;
    assert cs + [] == cs;
    if plan.StatusChanged() {
      PathGrows(cs, current, plan.status.value);
    } else if plan.status.Some? {
      PathEndUnique(cs, current, plan.status.value.to);
    }
  }

  /** What a Patch's commit does to the connection, from sound tables. */
  lemma {:induction false} CommitKeepsConnection(s: Sys, i: Uuid)
    requires TablesOk(s) && CanCommit(s, i) && s.open[i].plan.Some? && i in s.incidents
    requires Connected(s, i)
    ensures
      var s' := DoCommit(s, i);
      i in s'.incidents && (Connected(s', i) <==> ReadsStatus(s.open[i].plan.value, s.incidents[i].status))
  {
    hide TablesOk, Committed, StatusChanges, UniqueExternal, Path, StagedOk, CanTransition, ReadsStatus;
    PatchCommitReads(s, i);
    PathStep(StatusChanges(Committed(i, s.outbox, s.visible)), s.incidents[i].status, s.open[i].plan.value);
  }

  /**
   * The exact condition, in every reachable state: committing a Patch keeps the events connected to the
   * row's status if and only if the Patch named no status or had validated against the current one.
   */
  lemma {:induction false} CommitConnectsExactly(s: Sys, i: Uuid)
    requires Reachable(s) && CanCommit(s, i) && s.open[i].plan.Some? && i in s.incidents && Connected(s, i)
    ensures
      var s' := DoCommit(s, i);
      i in s'.incidents && (Connected(s', i) <==> ReadsStatus(s.open[i].plan.value, s.incidents[i].status))
  {
    hide TablesOk, DeliveryOk, CountsOk, Reachable, Connected, CanCommit, DoCommit, ReadsStatus;
    ReachableStates(s);
    CommitKeepsConnection(s, i);
  }

  lemma {:induction false} CreateCommitConnected(s: Sys, i: Uuid)
    requires TablesOk(s) && CanCommit(s, i) && i !in s.incidents
    ensures i in DoCommit(s, i).incidents && Connected(DoCommit(s, i), i)
  {
    hide OutboxOk, OpensOk, PlannedOk, RowsFromThePast, Explains, Committed, StatusChanges, ClosedEvents, Snapshots,
         Listings, SuccessRows, UniqueExternal, PatchPayloads, Normal, FromRow;
    CommitReads(s, i, i);
    NewEntryOk(s, i);
    EntryReads(NewEntry(s, i));
    TwoParts(Committed(i, s.outbox, s.visible), NewEntry(s, i).events);
    NoChanges();
  }

  lemma {:induction false} CommitKeepsAllConnected(s: Sys, i: Uuid)
    requires TablesOk(s) && OpenStatusOk(s) && AllConnected(s) && CanCommit(s, i)
    ensures AllConnected(DoCommit(s, i)) && OpenStatusOk(DoCommit(s, i))
  {
    hide TablesOk, Committed, StatusChanges, UniqueExternal, Path, StagedOk, SuccessRows;
    var s' := DoCommit(s, i);
    StagedRows(s, i);
    forall j | j in s'.incidents
      ensures Connected(s', j)
    {
      if j != i {
        CommitReads(s, i, j);
        assert Connected(s, j);
        assert Committed(j, s.outbox, s.visible) + [] == Committed(j, s.outbox, s.visible);
      } else if i in s.incidents {
        CommitKeepsConnection(s, i);
      } else {
        CreateCommitConnected(s, i);
      }
    }
  }

  lemma {:induction false} AppendKeepsConnected(s: Sys, s': Sys)
    requires TablesOk(s) && TablesOk(s') && AllConnected(s)
    requires s'.incidents == s.incidents && s'.log == s.log
    ensures AllConnected(s')
  {
    hide OutboxOk, OpensOk, PlannedOk, RowsFromThePast, Committed, StatusChanges, Path, LogOk, EventsOf, SuccessRows;
    forall i | i in s'.incidents
      ensures Connected(s', i)
    {
      IncidentInHistory(s, i);
      IncidentInHistory(s', i);
      assert Connected(s, i);
    }
  }

  lemma {:induction false} StepKeepsConnected(s: Sys, a: Action)
    requires TablesOk(s) && OpenStatusOk(s) && AllConnected(s) && Enabled(s, a) && FreshStatus(s, a)
    ensures AllConnected(Apply(s, a)) && OpenStatusOk(Apply(s, a))
  {
    hide TablesOk, IsFetch, UniqueExternal, Writes, RowFor, LockedBy, AuditFor, PatchTxFor, ValidCreate, AllConnected,
         StagedOk;
    if a.Commit? {
      CommitKeepsAllConnected(s, a.id);
    } else {
      StepKeepsTables(s, a);
      StepKeepsOpenStatus(s, a);
      AppendKeepsConnected(s, Apply(s, a));
    }
  }

  lemma {:induction false} StepKeepsOpenStatus(s: Sys, a: Action)
    requires TablesOk(s) && OpenStatusOk(s) && Enabled(s, a) && FreshStatus(s, a) && !a.Commit?
    ensures OpenStatusOk(Apply(s, a))
    ensures Apply(s, a).incidents == s.incidents && Apply(s, a).log == s.log
  {
    hide TablesOk, IsFetch, UniqueExternal, Writes, RowFor, AuditFor, PatchTxFor, ValidCreate, ReadsStatus,
         PatchPayloads, ApplyUpdate, StagedOk;
  }

  lemma {:induction false} FreshRunsConnect(acts: seq<Action>)
    requires Exec(Init(), acts).Some? && FreshRun(Init(), acts)
    ensures
      var s := Exec(Init(), acts).value;
      OpenStatusOk(s) && AllConnected(s)
  {
    hide Enabled, Apply, FreshStatus, OpenStatusOk, AllConnected, TablesOk;
    if acts == [] {
      EmptyIsConnected();
    } else {
      var n := |acts| - 1;
      FreshRunsConnect(acts[..n]);
      ReachableIsSound(acts[..n]);
      StepKeepsConnected(Exec(Init(), acts[..n]).value, acts[n]);
    }
  }

  lemma {:induction false} EmptyIsConnected()
    ensures OpenStatusOk(Init()) && AllConnected(Init())
  {
  }

  /**
   * For every run whose Patches of one incident do not overlap on its status: the
   * status_changed events of each incident form a connected path in the transition graph
   * from `new` to the row's status, n <= 5 + 4r, k >= 1 closed events need n >= 3k + 1, and
   * closed events are the changes out of closed plus one while it is closed.
   */
  lemma {:induction false} StatusEventsFormAPath(acts: seq<Action>, i: Uuid)
    requires Exec(Init(), acts).Some? && FreshRun(Init(), acts)
    requires i in Exec(Init(), acts).value.incidents
    ensures
      var s := Exec(Init(), acts).value;
      var events := Committed(i, s.outbox, s.visible);
      var changes := StatusChanges(events);
      && Path(changes, New, s.incidents[i].status)
      && |changes| <= 5 + 4 * Reopens(changes)
      && (ClosedEvents(events) > 0 ==> |changes| >= 3 * ClosedEvents(events) + 1)
      && ClosedEvents(events) == ClosedReopens(changes) + (if s.incidents[i].status == Closed then 1 else 0)
  {
    hide OutboxOk, OpensOk, PlannedOk, RowsFromThePast, DeliveryOk, CountsOk, Exec, Init, FreshRun, Committed, LogOk,
         EventsOf, StatusChanges, ClosedEvents, Path, Reopens, ClosedReopens, Closings, SuccessRows;
    var s := Exec(Init(), acts).value;
    FreshRunsConnect(acts);
    assert Connected(s, i);
    ReachableIsSound(acts);
    IncidentInHistory(s, i);
    NonEmptyLog(i, s.log[i]);
    ClosedEventsAreClosings(i, s.log[i]);
    LifecycleArithmetic(StatusChanges(Committed(i, s.outbox, s.visible)), s.incidents[i].status);
  }
}
