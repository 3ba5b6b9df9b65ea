/** Two overlapping Creates of one tenant whose events reach the bus against their created_at order. */
module Overtaking {
  import opened Prelude
  import opened Lifecycle
  import opened Auth
  import opened Domain
  import opened Outbox
  import opened Machine
  import opened Tables
  import opened Delivery
  import opened Conservation
  import opened Guarantees
  import opened Serial
  import opened Publishing
  import opened Progress
  import opened TenantOrder

  const FINE: RowFate := RowFate(PublishFate(Delivered, false, Delivered), true)

  /** A drain of one row. */
  ghost function DrainOf(outbox: seq<OutboxRow>, k: nat): seq<Action>
    requires k < |outbox|
  {
    DrainActions(outbox, Drain([k], [FINE]))
  }

  /** When a single row waits, one drain publishes and marks it. */
  lemma {:induction false} DrainTheOne(s: Sys, k: nat)
    requires Idle(s) && Pending(s) == {k} && s.outbox[k].body.WellFormed?
    ensures k < |s.outbox| && Exec(s, DrainOf(s.outbox, k)).Some?
    ensures
      var u := Exec(s, DrainOf(s.outbox, k)).value;
      && Idle(u) && Pending(u) == {}
      && u == s.(published := u.published, clock := u.clock, calls := u.calls, bus := s.bus + [s.outbox[k].body.env])
  {
    hide DrainActions, Exec;
    assert k in Pending(s);
    var d := Drain([k], [FINE]);
    forall j: nat | Unpublished(s.outbox, s.visible, s.published, j)
      ensures j == k
    {
      assert j in Pending(s);
    }
    assert IsFetch([k], BATCH, s.outbox, s.visible, s.published);
    DrainRun(s, d);
    var u := Exec(s, DrainActions(s.outbox, d)).value;
    assert BatchEnvelopes(s.outbox, [k]) == [s.outbox[k].body.env] + BatchEnvelopes(s.outbox, [k][1..]);
    assert BatchEnvelopes(s.outbox, [k]) == [s.outbox[k].body.env];
    assert k in u.published by {
      assert k in WellFormedIn(s.outbox, [k]);
    }
  }

  /** Create up to its commit. */
  function StagingActions(s: Sys, c: CreateCall): seq<Action> {
    var i := AfterCorrelation(c.correlation, s.nextId);
    [OpenCreate(c)] + [Record(i)] + [Enqueue(i)]
  }

  /** Create `a` has written everything and not committed. */
  ghost predicate Staged(s: Sys, u: Sys, a: CreateCall) {
    var o := PreparedCreate(a, s.clock, s.nextId);
    var i := o.row.id;
    && i in u.open && u.open[i].plan.None? && u.open[i].audit.Some? && u.open[i].todo == []
    && u.open[i].staged == [|s.outbox|] && u.open[i].row == o.row
    && u.outbox == s.outbox + [o.todo[0].row]
    && u.visible == s.visible && u.published == s.published && u.bus == s.bus && u.batch == s.batch
    && u.marking == s.marking && u.incidents == s.incidents && u.clock == s.clock + 3
  }

  lemma {:induction false} StageCreate(s: Sys, a: CreateCall)
    requires Sound(s) && ValidCreate(a.input)
    ensures Exec(s, StagingActions(s, a)).Some?
    ensures Staged(s, Exec(s, StagingActions(s, a)).value, a) && Sound(Exec(s, StagingActions(s, a)).value)
  {
    hide TablesOk, DeliveryOk, CountsOk, PreparedCreate, AuditFor, DoOpenCreate, DoRecord, DoEnqueue, Exec;
    CreateIsNew(s, a);
    var o := PreparedCreate(a, s.clock, s.nextId);
    PreparedFacts(a, s.clock, s.nextId);
    CreateRecorded(s, a);
    CreateEnqueued(s, a, AuditFor(o, o.row.id + 2, s.clock + 2));
    CreateStaged(s, a);
    RunsStaySound(s, StagingActions(s, a));
  }

  lemma {:induction false} BrokenStaysRun(s: Sys, acts: seq<Action>, t: Uuid)
    requires Sound(s) && Exec(s, acts).Some? && !TenantInOrder(s, t)
    ensures !TenantInOrder(Exec(s, acts).value, t)
  {
    hide TablesOk, DeliveryOk, CountsOk, Enabled, Apply, TenantInOrder;
    if acts != [] {
      var n := |acts| - 1;
      BrokenStaysRun(s, acts[..n], t);
      RunsStaySound(s, acts[..n]);
      BrokenStays(Exec(s, acts[..n]).value, acts[n], t);
    }
  }

  lemma {:induction false} PreparedEvent(c: CreateCall, clock: Time, nextId: Uuid)
    ensures
      var o := PreparedCreate(c, clock, nextId);
      && |o.todo| == 1 && o.todo[0].Ready? && o.todo[0].row.body.WellFormed?
      && o.todo[0].row.body.env.tenant == c.tenant && o.todo[0].row.createdAt == clock
      && o.row.externalId == c.input.externalId && o.row.id == AfterCorrelation(c.correlation, nextId)
  {
  }

  /** The younger event is on the bus and the older one is committed: the order is broken. */
  lemma {:induction false} Overtaken(s: Sys, t: Uuid, n: nat)
    requires Sound(s) && IsRow(t, s.outbox, s.visible, n) && IsRow(t, s.outbox, s.visible, n + 1)
    requires s.outbox[n].createdAt < s.outbox[n + 1].createdAt
    requires s.outbox[n + 1].body.env in s.bus && s.outbox[n].body.env !in s.bus
    ensures !TenantInOrder(s, t)
  {
    hide TablesOk, MarkedOk, BusOk, BatchOk, OrderOk, PrefixOk, CountsOk, DistinctRows, TenantInOrder;
    RowsAreDistinct(s);
    OvertakenBreaks(s, t, n, n + 1);
  }

  lemma {:induction false} DrainedIsOnBus(s: Sys, t: Uuid)
    requires Sound(s) && Pending(s) == {}
    ensures AllOnBus(s, t)
  {
    hide TablesOk, BusOk, BatchOk, OrderOk, PrefixOk, CountsOk, EventIds;
    forall k: nat | IsRow(t, s.outbox, s.visible, k)
      ensures Sent(s.outbox, s.bus, k)
    {
      assert k !in Pending(s);
      assert k in s.published;
    }
  }

  lemma {:induction false} NotOnBusYet(s: Sys, k: nat)
    requires Sound(s) && k < |s.outbox| && s.outbox[k].body.WellFormed? && k !in s.visible
    ensures s.outbox[k].body.env !in s.bus
  {
    hide TablesOk, MarkedOk, BusOk, BatchOk, OrderOk, PrefixOk, CountsOk, DistinctRows;
    RowsAreDistinct(s);
    HiddenUnsent(s.outbox, s.visible, s.bus, k);
    RowIds(s.outbox);
  }

  /** After `b` is published, committing `a` breaks the order, and publishing it leaves it broken. */
  lemma {:induction false} CommitLate(s: Sys, i: Uuid, n: nat, t: Uuid)
    requires Sound(s) && Idle(s) && Pending(s) == {} && i in s.open
    requires s.open[i].audit.Some? && s.open[i].todo == [] && s.open[i].plan.None? && s.open[i].staged == [n]
    requires s.open[i].row.externalId.None?
    requires n + 1 < |s.outbox| && n !in s.visible && Concerns(t, s.outbox, n) && IsRow(t, s.outbox, s.visible, n + 1)
    requires s.outbox[n].createdAt < s.outbox[n + 1].createdAt && s.outbox[n + 1].body.env in s.bus
    ensures Exec(s, [Commit(i)] + DrainOf(s.outbox, n)).Some?
    ensures
      var u := Exec(s, [Commit(i)] + DrainOf(s.outbox, n)).value;
      AllOnBus(u, t) && !TenantInOrder(u, t)
  {
    hide TablesOk, DeliveryOk, CountsOk, TenantInOrder, Exec, AllOnBus;
    CommitStep(s, i);
    OneStep(s, Commit(i));
    SoundStep(s, Commit(i));
    var u := DoCommit(s, i);
    assert Elements([n]) == {n};
    NotOnBusYet(s, n);
    OneMorePending(s, u, n);
    Overtaken(u, t, n);
    DrainTheOne(u, n);
    BrokenStaysRun(u, DrainOf(u.outbox, n), t);
    RunsStaySound(u, DrainOf(u.outbox, n));
    DrainedIsOnBus(Exec(u, DrainOf(u.outbox, n)).value, t);
    ExecConcat(s, [Commit(i)], DrainOf(u.outbox, n));
  }

  lemma {:induction false} OneMorePending(s: Sys, u: Sys, n: nat)
    requires Sound(s) && Pending(s) == {} && s.outbox <= u.outbox && n < |u.outbox| && n !in s.visible
    requires u.visible == s.visible + {n} && u.published == s.published
    ensures Pending(u) == {n}
  {
    hide TablesOk, BusOk, BatchOk, OrderOk, PrefixOk, CountsOk, EventIds;
    VisibleKnown(s);
    forall k
      ensures k in Pending(u) <==> k == n
    {
      assert k in s.visible ==> k !in Pending(s);
    }
  }

  lemma {:induction false} VisibleKnown(s: Sys)
    requires TablesOk(s)
    ensures forall k :: k in s.visible ==> k < |s.outbox|
  {
    hide OpensOk, PlannedOk, HistoryOk, RowsFromThePast, DistinctRows, SameEntity;
  }

  /**
   * After any run that left nothing to publish, two overlapping Creates of one tenant: the older
   * one commits last, everything is published, and the bus is against created_at.
   */
  lemma {:induction false} OverlapOvertakes(before: seq<Action>, a: CreateCall, b: CreateCall) returns (acts: seq<Action>)
    requires Exec(Init(), before).Some? && ValidCreate(a.input) && ValidCreate(b.input)
    requires Idle(Exec(Init(), before).value) && Pending(Exec(Init(), before).value) == {}
    requires a.tenant == b.tenant && a.input.externalId.None? && b.input.externalId.None?
    ensures before <= acts && Exec(Init(), acts).Some?
    ensures AllOnBus(Exec(Init(), acts).value, a.tenant)
    ensures !FollowCreatedAt(Exec(Init(), acts).value, a.tenant) && !TenantInOrder(Exec(Init(), acts).value, a.tenant)
  {
    hide Exec, Init, TablesOk, DeliveryOk, CountsOk, TenantInOrder, FollowCreatedAt, AllOnBus, PreparedCreate,
         CreateActions, StagingActions, DrainActions, Pending;
    var s := Exec(Init(), before).value;
    var n, t := |s.outbox|, a.tenant;
    ReachableIsSound(before);
    VisibleKnown(s);
    StageCreate(s, a);
    var s1 := Exec(s, StagingActions(s, a)).value;
    PreparedEvent(a, s.clock, s.nextId);
    PreparedEvent(b, s1.clock, s1.nextId);
    CreateAlone(s1, b);
    var s2 := Exec(s1, CreateActions(s1, b)).value;
    RunsStaySound(s1, CreateActions(s1, b));
    SamePending(s, s1);
    OneMorePending(s1, s2, n + 1);
    DrainTheOne(s2, n + 1);
    var s3 := Exec(s2, DrainOf(s2.outbox, n + 1)).value;
    RunsStaySound(s2, DrainOf(s2.outbox, n + 1));
    var i := PreparedCreate(a, s.clock, s.nextId).row.id;
    CommitLate(s3, i, n, t);
    var first, second := StagingActions(s, a), CreateActions(s1, b);
    var third, last := DrainOf(s2.outbox, n + 1), [Commit(i)] + DrainOf(s3.outbox, n);
    acts := before + first + second + third + last;
    ExecConcat(Init(), before, first);
    ExecConcat(Init(), before + first, second);
    ExecConcat(Init(), before + first + second, third);
    ExecConcat(Init(), before + first + second + third, last);
    ReachableIsSound(acts);
    OrderOfAll(Exec(Init(), acts).value, t);
  }

  lemma {:induction false} SamePending(s: Sys, u: Sys)
    requires Sound(s) && s.outbox <= u.outbox && u.visible == s.visible && u.published == s.published
    ensures Pending(u) == Pending(s)
  {
    hide TablesOk, DeliveryOk, CountsOk;
    VisibleKnown(s);
  }

  /** The shortest such run: two Creates on the empty database. */
  lemma {:induction false} TenantOrderBreaks() returns (acts: seq<Action>)
    ensures Exec(Init(), acts).Some? && AllOnBus(Exec(Init(), acts).value, 1)
    ensures !FollowCreatedAt(Exec(Init(), acts).value, 1) && !NeverLate(Init(), acts, 1)
  {
    hide TenantInOrder, FollowCreatedAt, AllOnBus, NeverLate;
    var who := Principal("user", "ada");
    var a := CreateCall(who, 1, CreateInput(None, "disk full", None, High, None, None, None, None), 1);
    var b := CreateCall(who, 1, CreateInput(None, "disk slow", None, Low, None, None, None, None), 1);
    acts := OverlapOvertakes([], a, b);
    TenantOrderExactly(acts, 1);
  }

  // ---- looking at the bus alone is not enough ----

  /** No commit of the run was older than a row of the tenant already on the bus. */
  ghost predicate CommitsAfterBus(s: Sys, acts: seq<Action>, t: Uuid)
    requires Exec(s, acts).Some?
  {
    acts == [] ||
    var n := |acts| - 1;
    CommitsAfterBus(s, acts[..n], t) && (acts[n].Commit? ==> NotLate(Exec(s, acts[..n]).value, acts[n], t))
  }

  lemma {:induction false} EmptyBusIsNotLate(s: Sys, a: Action, t: Uuid)
    requires Enabled(s, a) && a.Commit? && s.bus == []
    ensures NotLate(s, a, t)
  {
    hide Enabled, Concerns;
  }

  lemma {:induction false} SilentRun(acts: seq<Action>, t: Uuid)
    requires Exec(Init(), acts).Some? && Exec(Init(), acts).value.bus == []
    ensures CommitsAfterBus(Init(), acts, t)
  {
    hide TablesOk, DeliveryOk, CountsOk, Enabled, Apply, NotLate;
    if acts != [] {
      var n := |acts| - 1;
      ReachableIsSound(acts[..n]);
      StepGrows(Exec(Init(), acts[..n]).value, acts[n], t);
      SilentRun(acts[..n], t);
      if acts[n].Commit? {
        EmptyBusIsNotLate(Exec(Init(), acts[..n]).value, acts[n], t);
      }
    }
  }

  lemma {:induction false} RelayAddsNoCommit(acts: seq<Action>, more: seq<Action>, t: Uuid)
    requires Exec(Init(), acts).Some? && CommitsAfterBus(Init(), acts, t)
    requires RelayOnly(more) && Exec(Init(), acts + more).Some?
    ensures CommitsAfterBus(Init(), acts + more, t)
  {
    hide Enabled, Apply, NotLate, Init;
    if more == [] {
      assert acts + more == acts;
    } else {
      var n := |more| - 1;
      assert (acts + more)[..|acts + more| - 1] == acts + more[..n];
      ExecPrefix(Init(), acts + more, |acts + more| - 1);
      RelayAddsNoCommit(acts, more[..n], t);
    }
  }

  /** The relay fetches the only waiting row. */
  lemma {:induction false} FetchTheOne(s: Sys, k: nat)
    requires Idle(s) && Pending(s) == {k}
    ensures Exec(s, [Fetch([k])]) == Some(s.(batch := [k]))
  {
    hide Exec;
    assert k in Pending(s);
    forall j: nat | Unpublished(s.outbox, s.visible, s.published, j)
      ensures j == k
    {
      assert j in Pending(s);
    }
    FetchRun(s, [k]);
  }

  /** Create `a` commits while the relay holds the younger row of `b`: not on time. */
  lemma {:induction false} BatchMakesLate(s: Sys, i: Uuid, n: nat, t: Uuid)
    requires i in s.open && s.open[i].staged == [n] && s.batch == [n + 1]
    requires Concerns(t, s.outbox, n) && IsRow(t, s.outbox, s.visible, n + 1)
    requires s.outbox[n].createdAt < s.outbox[n + 1].createdAt
    ensures !OnTime(s, i, t)
  {
    hide EventIds;
    assert n in Elements([n]) && n + 1 in s.batch;
  }

  /**
   * A run in which no commit is older than what is on the bus, and yet the tenant's order breaks: the
   * younger row was fetched before the older one was committed, and published after.
   */
  lemma {:induction false} StaleBatchOvertakes() returns (acts: seq<Action>)
    ensures Exec(Init(), acts).Some? && CommitsAfterBus(Init(), acts, 1)
    ensures !TenantInOrder(Exec(Init(), acts).value, 1)
  {
    hide Exec, Init, TablesOk, DeliveryOk, CountsOk, TenantInOrder, PreparedCreate, CreateActions, StagingActions,
         Pending, OnTime, NotLate, CommitsAfterBus, RelayOnly;
    var who := Principal("user", "ada");
    var a := CreateCall(who, 1, CreateInput(None, "disk full", None, High, None, None, None, None), 1);
    var b := CreateCall(who, 1, CreateInput(None, "disk slow", None, Low, None, None, None, None), 1);
    var s := Init();
    InitFields();
    InitIsSound();
    StageCreate(s, a);
    var s1 := Exec(s, StagingActions(s, a)).value;
    PreparedEvent(a, s.clock, s.nextId);
    PreparedEvent(b, s1.clock, s1.nextId);
    CreateAlone(s1, b);
    var s2 := Exec(s1, CreateActions(s1, b)).value;
    RunsStaySound(s1, CreateActions(s1, b));
    SamePending(s, s1);
    OneMorePending(s1, s2, 1);
    FetchTheOne(s2, 1);
    RunsStaySound(s2, [Fetch([1])]);
    var s3 := s2.(batch := [1]);
    var i := PreparedCreate(a, s.clock, s.nextId).row.id;
    BatchMakesLate(s3, i, 0, 1);
    CommitStep(s3, i);
    OneStep(s3, Commit(i));
    var more := LateCommitBreaks(s3, i, 1);
    var first, second, third := StagingActions(s, a), CreateActions(s1, b), [Fetch([1])];
    var before := first + second + third + [Commit(i)];
    ExecConcat(s, first, second);
    ExecConcat(s, first + second, third);
    ExecConcat(s, first + second + third, [Commit(i)]);
    ExecConcat(s, before, more);
    SilentRun(before, 1);
    acts := before + more;
    RelayAddsNoCommit(before, more, 1);
  }

  lemma {:induction false} InitFields()
    ensures Idle(Init()) && Pending(Init()) == {} && Init().outbox == [] && Init().bus == [] && Init().incidents == map[]
    ensures Init().visible == {}
  {
  }
}
