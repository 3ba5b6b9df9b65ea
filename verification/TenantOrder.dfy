/**
 * Order within a tenant. Across the incidents of one tenant commits may become visible out of
 * created_at order, and then the bus is out of order too. This says exactly when.
 */
module TenantOrder {
  import opened Prelude
  import opened Lifecycle
  import opened Auth
  import opened Domain
  import opened Outbox
  import opened Machine
  import opened Tables
  import opened Delivery
  import opened Conservation
  import opened Guarantees
  import opened Serial
  import opened Stamps
  import opened Publishing
  import opened Progress

  /** Row k holds an event of tenant t. */
  predicate Concerns(t: Uuid, rows: seq<OutboxRow>, k: nat) {
    k < |rows| && rows[k].body.WellFormed? && rows[k].body.env.tenant == t
  }

  /** Row k is a committed event of tenant t. */
  predicate IsRow(t: Uuid, rows: seq<OutboxRow>, visible: set<nat>, k: nat) {
    k in visible && Concerns(t, rows, k)
  }

  /** The first copies of the events of tenant t, in bus order. */
  function TenantFirstCopies(t: Uuid, bus: seq<Envelope>): seq<Envelope> {
    if bus == [] then
      []
    else
      var n := |bus| - 1;
      TenantFirstCopies(t, bus[..n])
      + if bus[n].tenant == t && bus[n].eventId !in EventIds(bus[..n]) then [bus[n]] else []
  }

  /** d comes before e: at some point d is in and e is not. */
  ghost predicate Ahead(first: seq<Envelope>, d: Envelope, e: Envelope) {
    exists n: nat :: n <= |first| && d in first[..n] && e !in first[..n]
  }

  /**
   * The tenant's first copies are a prefix of its committed rows in created_at order: whatever is
   * on the bus, every older committed row is there too, and came first.
   */
  ghost predicate InOrder(t: Uuid, rows: seq<OutboxRow>, visible: set<nat>, bus: seq<Envelope>) {
    forall j: nat, k: nat ::
      IsRow(t, rows, visible, j) && IsRow(t, rows, visible, k) && rows[j].createdAt < rows[k].createdAt
      && rows[k].body.env in TenantFirstCopies(t, bus) ==>
        Ahead(TenantFirstCopies(t, bus), rows[j].body.env, rows[k].body.env)
  }

  ghost predicate TenantInOrder(s: Sys, t: Uuid) {
    InOrder(t, s.outbox, s.visible, s.bus)
  }

  /** Of any two first copies the one with the older created_at comes first. */
  ghost predicate FollowCreatedAt(s: Sys, t: Uuid) {
    var first := TenantFirstCopies(t, s.bus);
    forall j: nat, k: nat ::
      IsRow(t, s.outbox, s.visible, j) && IsRow(t, s.outbox, s.visible, k)
      && s.outbox[j].createdAt < s.outbox[k].createdAt
      && s.outbox[j].body.env in first && s.outbox[k].body.env in first ==>
        Ahead(first, s.outbox[j].body.env, s.outbox[k].body.env)
  }

  // ---- first copies ----

  lemma {:induction false} TenantFirstCopiesGrow(t: Uuid, bus: seq<Envelope>, e: Envelope)
    ensures TenantFirstCopies(t, bus + [e]) ==
            TenantFirstCopies(t, bus) + if e.tenant == t && e.eventId !in EventIds(bus) then [e] else []
  {
    hide EventIds;
    assert (bus + [e])[..|bus|] == bus;
  }

  lemma {:induction false} TenantFirstCopiesRepeat(t: Uuid, bus: seq<Envelope>, e: Envelope, n: nat)
    ensures TenantFirstCopies(t, bus + Repeat(e, n)) ==
            TenantFirstCopies(t, bus) + if n > 0 && e.tenant == t && e.eventId !in EventIds(bus) then [e] else []
    ensures EventIds(bus + Repeat(e, n)) == EventIds(bus) + if n > 0 then {e.eventId} else {}
  {
    hide EventIds, TenantFirstCopies;
    if n == 0 {
      assert bus + Repeat(e, n) == bus;
      assert TenantFirstCopies(t, bus) + [] == TenantFirstCopies(t, bus);
    } else {
      TenantFirstCopiesRepeat(t, bus, e, n - 1);
      var before := bus + Repeat(e, n - 1);
      assert bus + Repeat(e, n) == before + [e];
      TenantFirstCopiesGrow(t, before, e);
      FirstCopiesGrow(0, before, e);
      assert TenantFirstCopies(t, bus) + [] == TenantFirstCopies(t, bus);
      assert TenantFirstCopies(t, before) + [] == TenantFirstCopies(t, before);
    }
  }

  lemma {:induction false} TenantFirstCopiesOnBus(t: Uuid, bus: seq<Envelope>, e: Envelope)
    requires forall d :: d in bus && d.eventId == e.eventId ==> d == e
    ensures e in TenantFirstCopies(t, bus) <==> e.tenant == t && e in bus
  {
    if bus != [] {
      var n := |bus| - 1;
      assert bus == bus[..n] + [bus[n]];
      TenantFirstCopiesOnBus(t, bus[..n], e);
    }
  }

  /** A committed row of the tenant is on the bus exactly when it has a first copy. */
  lemma {:induction false} SentHasFirstCopy(s: Sys, t: Uuid, k: nat)
    requires DistinctRows(s.outbox) && BusOk(s.outbox, s.visible, s.bus) && Concerns(t, s.outbox, k)
    ensures Sent(s.outbox, s.bus, k) <==> s.outbox[k].body.env in TenantFirstCopies(t, s.bus)
    ensures k !in s.visible ==> !Sent(s.outbox, s.bus, k)
  {
    hide DistinctRows, BusOk, TenantFirstCopies;
    var e := s.outbox[k].body.env;
    RowIds(s.outbox);
    forall d | d in s.bus && d.eventId == e.eventId
      ensures d == e
    {
      MessageOfRow(s.outbox, s.visible, s.bus, k, d);
    }
    TenantFirstCopiesOnBus(t, s.bus, e);
    if k !in s.visible {
      HiddenUnsent(s.outbox, s.visible, s.bus, k);
    }
  }

  lemma {:induction false} HiddenUnsent(rows: seq<OutboxRow>, visible: set<nat>, bus: seq<Envelope>, k: nat)
    requires DistinctRows(rows) && BusOk(rows, visible, bus)
    requires k < |rows| && k !in visible && rows[k].body.WellFormed?
    ensures !Sent(rows, bus, k)
  {
    forall d | d in bus
      ensures d.eventId != rows[k].eventId
    {
      var a: nat :| Holds(rows, visible, a, d);
    }
  }

  lemma {:induction false} AheadKept(first: seq<Envelope>, more: seq<Envelope>, d: Envelope, e: Envelope)
    requires Ahead(first, d, e)
    ensures Ahead(first + more, d, e)
  {
    var n: nat :| n <= |first| && d in first[..n] && e !in first[..n];
    assert (first + more)[..n] == first[..n];
  }

  lemma {:induction false} AheadOfNew(first: seq<Envelope>, d: Envelope, e: Envelope)
    requires d in first && e !in first
    ensures Ahead(first + [e], d, e)
  {
    assert (first + [e])[..|first|] == first;
  }

  /** Once e is there, nothing new gets ahead of it. */
  lemma {:induction false} AheadWasAhead(first: seq<Envelope>, more: seq<Envelope>, d: Envelope, e: Envelope)
    requires Ahead(first + more, d, e) && e in first
    ensures Ahead(first, d, e)
  {
    var x :| 0 <= x < |first| && first[x] == e;
    forall n: nat | x < n <= |first + more|
      ensures e in (first + more)[..n]
    {
      assert (first + more)[..n][x] == e;
    }
    var n: nat :| n <= |first + more| && d in (first + more)[..n] && e !in (first + more)[..n];
    assert n <= x;
    assert (first + more)[..n] == first[..n];
  }

  lemma {:induction false} AheadIsIn(first: seq<Envelope>, d: Envelope, e: Envelope)
    requires Ahead(first, d, e)
    ensures d in first
  {
  }

  // ---- one step ----

  /**
   * The guard of a step. A commit is late when it makes a row of the tenant visible that is
   * older than one already on the bus; a first publish is late when an older committed row is not on the bus.
   */
  ghost predicate NotLate(s: Sys, a: Action, t: Uuid)
    requires Enabled(s, a)
  {
    match a
    case Commit(i) =>
      forall j: nat, k: nat ::
        j in Elements(s.open[i].staged) && Concerns(t, s.outbox, j)
        && IsRow(t, s.outbox, s.visible, k) && Sent(s.outbox, s.bus, k) ==>
          s.outbox[k].createdAt <= s.outbox[j].createdAt
    case Publish(_, copies) =>
      copies > 0 && IsRow(t, s.outbox, s.visible, s.batch[0]) && !Sent(s.outbox, s.bus, s.batch[0]) ==>
        OlderSent(s, t, s.batch[0])
    case _ => true
  }

  /** Every committed row of the tenant older than row k is on the bus. */
  ghost predicate OlderSent(s: Sys, t: Uuid, k: nat)
    requires k < |s.outbox|
  {
    forall j: nat :: IsRow(t, s.outbox, s.visible, j) && s.outbox[j].createdAt < s.outbox[k].createdAt ==>
      Sent(s.outbox, s.bus, j)
  }

  /** The tenant's committed rows and the bus are as they were. */
  ghost predicate SameView(s: Sys, u: Sys, t: Uuid) {
    && u.bus == s.bus
    && (forall k: nat :: IsRow(t, u.outbox, u.visible, k) <==> IsRow(t, s.outbox, s.visible, k))
    && (forall k: nat :: IsRow(t, s.outbox, s.visible, k) ==> k < |u.outbox| && u.outbox[k] == s.outbox[k])
  }

  lemma {:induction false} SameViewSameOrder(s: Sys, u: Sys, t: Uuid)
    requires SameView(s, u, t)
    ensures TenantInOrder(u, t) <==> TenantInOrder(s, t)
  {
    hide TenantFirstCopies, Ahead;
  }

  /** Only commits and publishes touch what a tenant's order is about. */
  lemma {:induction false} OtherStepsKeepView(s: Sys, a: Action, t: Uuid)
    requires TablesOk(s) && Enabled(s, a) && !a.Commit? && !a.Publish?
    ensures SameView(s, Apply(s, a), t)
  {
    hide OpensOk, PlannedOk, HistoryOk, RowsFromThePast, IsFetch, UniqueExternal, Writes, StagedOk, RowFor, ValidCreate,
         PreparedCreate, LockedBy, AuditFor, PatchTxFor, DistinctRows, SameEntity;
  }

  lemma {:induction false} CommitView(s: Sys, i: Uuid, t: Uuid, k: nat)
    requires TablesOk(s) && CanCommit(s, i)
    ensures
      var u := DoCommit(s, i);
      && u.bus == s.bus && u.outbox == s.outbox && u.batch == s.batch && u.marking == s.marking
      && u.published == s.published
      && (IsRow(t, u.outbox, u.visible, k) <==>
            IsRow(t, s.outbox, s.visible, k) || (k in Elements(s.open[i].staged) && Concerns(t, s.outbox, k)))
      && (k in Elements(s.open[i].staged) ==> k !in s.visible && k < |s.outbox|)
  {
    hide TablesOk, StagedOk, UniqueExternal, Elements;
    StagedBehindVisible(s, i);
  }

  /** A commit keeps the order if and only if it is not late. */
  lemma {:induction false} CommitInOrder(s: Sys, i: Uuid, t: Uuid)
    requires TablesOk(s) && DeliveryOk(s) && CanCommit(s, i) && TenantInOrder(s, t)
    ensures Enabled(s, Commit(i)) && (TenantInOrder(DoCommit(s, i), t) <==> NotLate(s, Commit(i), t))
  {
    hide TablesOk, MarkedOk, BusOk, BatchOk, OrderOk, PrefixOk, StagedOk, UniqueExternal, Elements, DoCommit, DistinctRows,
         TenantFirstCopies, Ahead;
    var u := DoCommit(s, i);
    var first := TenantFirstCopies(t, s.bus);
    RowsAreDistinct(s);
    CommitStep(s, i);
    CommitView(s, i, t, 0);
    if TenantInOrder(u, t) {
      forall j: nat, k: nat | j in Elements(s.open[i].staged) && Concerns(t, s.outbox, j)
                    && IsRow(t, s.outbox, s.visible, k) && Sent(s.outbox, s.bus, k)
        ensures s.outbox[k].createdAt <= s.outbox[j].createdAt
      {
        CommitView(s, i, t, j);
        CommitView(s, i, t, k);
        SentHasFirstCopy(s, t, j);
        SentHasFirstCopy(s, t, k);
        if s.outbox[j].createdAt < s.outbox[k].createdAt {
          AheadIsIn(first, s.outbox[j].body.env, s.outbox[k].body.env);
        }
      }
    }
    if NotLate(s, Commit(i), t) {
      forall j: nat, k: nat | IsRow(t, u.outbox, u.visible, j) && IsRow(t, u.outbox, u.visible, k)
                    && u.outbox[j].createdAt < u.outbox[k].createdAt && u.outbox[k].body.env in first
        ensures Ahead(first, u.outbox[j].body.env, u.outbox[k].body.env)
      {
        CommitView(s, i, t, j);
        CommitView(s, i, t, k);
        SentHasFirstCopy(s, t, k);
      }
    }
  }

  lemma {:induction false} EnvelopesDiffer(rows: seq<OutboxRow>, j: nat, k: nat)
    requires DistinctRows(rows) && j < |rows| && k < |rows| && j != k
    requires rows[j].body.WellFormed? && rows[k].body.WellFormed?
    ensures rows[j].body.env != rows[k].body.env && rows[j].eventId != rows[k].eventId
  {
  }

  /** A publish keeps the order if and only if it is not late. */
  lemma {:induction false} PublishInOrder(s: Sys, ok: bool, copies: nat, t: Uuid)
    requires TablesOk(s) && DeliveryOk(s) && Enabled(s, Publish(ok, copies)) && TenantInOrder(s, t)
    ensures TenantInOrder(DoPublish(s, ok, copies), t) <==> NotLate(s, Publish(ok, copies), t)
  {
    hide TablesOk, MarkedOk, BusOk, OrderOk, PrefixOk, DistinctRows, TenantFirstCopies, Ahead, EventIds;
    var b := s.batch[0];
    var e := s.outbox[b].body.env;
    var first := TenantFirstCopies(t, s.bus);
    var u := DoPublish(s, ok, copies);
    RowsAreDistinct(s);
    RowIds(s.outbox);
    TenantFirstCopiesRepeat(t, s.bus, e, copies);
    assert Unpublished(s.outbox, s.visible, s.published, b);
    if copies > 0 && e.tenant == t && !Sent(s.outbox, s.bus, b) {
      NewFirstCopy(s, t, b);
      assert TenantFirstCopies(t, u.bus) == first + [e];
      assert TenantInOrder(u, t) <==> InOrder(t, s.outbox, s.visible, s.bus + Repeat(e, copies));
      NewInOrder(s, u, t, b);
    } else {
      assert first + [] == first;
      SameFirstCopies(s, u, t);
    }
  }

  lemma {:induction false} SameFirstCopies(s: Sys, u: Sys, t: Uuid)
    requires u.outbox == s.outbox && u.visible == s.visible
    requires TenantFirstCopies(t, u.bus) == TenantFirstCopies(t, s.bus)
    ensures TenantInOrder(u, t) <==> TenantInOrder(s, t)
  {
    hide TenantFirstCopies, Ahead;
  }

  lemma {:induction false} NewFirstCopy(s: Sys, t: Uuid, b: nat)
    requires DistinctRows(s.outbox) && BusOk(s.outbox, s.visible, s.bus)
    requires Concerns(t, s.outbox, b) && !Sent(s.outbox, s.bus, b)
    ensures s.outbox[b].body.env.eventId !in EventIds(s.bus)
    ensures s.outbox[b].body.env !in TenantFirstCopies(t, s.bus)
  {
    hide BusOk, TenantFirstCopies, EventIds;
    SentHasFirstCopy(s, t, b);
  }

  /** One more first copy is in order if and only if everything older is there already. */
  lemma {:induction false} NewInOrder(s: Sys, u: Sys, t: Uuid, b: nat)
    requires DistinctRows(s.outbox) && BusOk(s.outbox, s.visible, s.bus) && TenantInOrder(s, t)
    requires IsRow(t, s.outbox, s.visible, b) && !Sent(s.outbox, s.bus, b)
    requires u.outbox == s.outbox && u.visible == s.visible
    requires TenantFirstCopies(t, u.bus) == TenantFirstCopies(t, s.bus) + [s.outbox[b].body.env]
    ensures TenantInOrder(u, t) <==> OlderSent(s, t, b)
  {
    hide DistinctRows, BusOk, TenantFirstCopies, Ahead;
    var e := s.outbox[b].body.env;
    var first := TenantFirstCopies(t, s.bus);
    SentHasFirstCopy(s, t, b);
    if TenantInOrder(u, t) {
      forall j: nat | IsRow(t, s.outbox, s.visible, j) && s.outbox[j].createdAt < s.outbox[b].createdAt
        ensures Sent(s.outbox, s.bus, j)
      {
        assert e in first + [e];
        assert Ahead(first + [e], s.outbox[j].body.env, e);
        AheadIsIn(first + [e], s.outbox[j].body.env, e);
        EnvelopesDiffer(s.outbox, j, b);
        SentHasFirstCopy(s, t, j);
      }
    }
    if OlderSent(s, t, b) {
      forall j: nat, k: nat | IsRow(t, s.outbox, s.visible, j) && IsRow(t, s.outbox, s.visible, k)
                    && s.outbox[j].createdAt < s.outbox[k].createdAt && s.outbox[k].body.env in first + [e]
        ensures Ahead(first + [e], s.outbox[j].body.env, s.outbox[k].body.env)
      {
        SentHasFirstCopy(s, t, j);
        if k == b {
          AheadOfNew(first, s.outbox[j].body.env, e);
        } else {
          EnvelopesDiffer(s.outbox, k, b);
          AheadKept(first, [e], s.outbox[j].body.env, s.outbox[k].body.env);
        }
      }
    }
  }

  /** From an ordered state a step keeps the order if and only if it is not late. */
  lemma {:induction false} StepInOrder(s: Sys, a: Action, t: Uuid)
    requires TablesOk(s) && DeliveryOk(s) && Enabled(s, a) && TenantInOrder(s, t)
    ensures TenantInOrder(Apply(s, a), t) <==> NotLate(s, a, t)
  {
    hide TablesOk, DeliveryOk, TenantInOrder, CanCommit, IsFetch, DoCommit, DoPublish;
    if a.Commit? {
      CommitInOrder(s, a.id, t);
    } else if a.Publish? {
      PublishInOrder(s, a.ok, a.copies, t);
    } else {
      OtherStepsKeepView(s, a, t);
      SameViewSameOrder(s, Apply(s, a), t);
    }
  }

  // ---- whole runs ----

  ghost predicate NeverLate(s: Sys, acts: seq<Action>, t: Uuid)
    requires Exec(s, acts).Some?
  {
    acts == [] || (NeverLate(s, acts[..|acts| - 1], t)
                   && NotLate(Exec(s, acts[..|acts| - 1]).value, acts[|acts| - 1], t))
  }

  /** What the bus and the committed rows look like later: both only grow. */
  lemma {:induction false} StepGrows(s: Sys, a: Action, t: Uuid)
    requires TablesOk(s) && Enabled(s, a)
    ensures s.bus <= Apply(s, a).bus
    ensures forall k: nat :: IsRow(t, s.outbox, s.visible, k) ==>
              IsRow(t, Apply(s, a).outbox, Apply(s, a).visible, k) && Apply(s, a).outbox[k] == s.outbox[k]
  {
    hide TablesOk, IsFetch, UniqueExternal, Writes, StagedOk, RowFor, ValidCreate, PreparedCreate, LockedBy, AuditFor,
         PatchTxFor, Repeat, Elements, EnvelopesAt;
  }

  lemma {:induction false} TenantFirstCopiesMonotone(t: Uuid, bus: seq<Envelope>, more: seq<Envelope>)
    ensures TenantFirstCopies(t, bus) <= TenantFirstCopies(t, bus + more)
  {
    hide EventIds;
    if more == [] {
      assert bus + more == bus;
    } else {
      var n := |more| - 1;
      TenantFirstCopiesMonotone(t, bus, more[..n]);
      assert bus + more == bus + more[..n] + [more[n]];
      TenantFirstCopiesGrow(t, bus + more[..n], more[n]);
    }
  }

  /** An order once broken stays broken: a first copy never moves. */
  lemma {:induction false} BrokenStays(s: Sys, a: Action, t: Uuid)
    requires TablesOk(s) && Enabled(s, a) && !TenantInOrder(s, t)
    ensures !TenantInOrder(Apply(s, a), t)
  {
    hide TablesOk, Enabled, Apply, TenantFirstCopies, Ahead;
    var u := Apply(s, a);
    var first, later := TenantFirstCopies(t, s.bus), TenantFirstCopies(t, u.bus);
    var j: nat, k: nat :| IsRow(t, s.outbox, s.visible, j) && IsRow(t, s.outbox, s.visible, k)
                && s.outbox[j].createdAt < s.outbox[k].createdAt && s.outbox[k].body.env in first
                && !Ahead(first, s.outbox[j].body.env, s.outbox[k].body.env);
    StepGrows(s, a, t);
    assert s.bus + u.bus[|s.bus|..] == u.bus;
    TenantFirstCopiesMonotone(t, s.bus, u.bus[|s.bus|..]);
    assert later == first + later[|first|..];
    if Ahead(later, s.outbox[j].body.env, s.outbox[k].body.env) {
      AheadWasAhead(first, later[|first|..], s.outbox[j].body.env, s.outbox[k].body.env);
    }
  }

  lemma {:induction false} StartInOrder(t: Uuid)
    ensures TenantInOrder(Init(), t)
  {
  }

  /**
   * Exactly when order within a tenant holds, for every run: the first copies of the tenant's
   * events are a prefix of its committed rows in created_at order if and only if no commit made a
   * row visible that was older than a row already on the bus, and no publish overtook an older committed row.
   */
  lemma {:induction false} TenantOrderExactly(acts: seq<Action>, t: Uuid)
    requires Exec(Init(), acts).Some?
    ensures TenantInOrder(Exec(Init(), acts).value, t) <==> NeverLate(Init(), acts, t)
  {
    hide TablesOk, DeliveryOk, CountsOk, Enabled, Apply, TenantInOrder, NotLate;
    if acts == [] {
      StartInOrder(t);
    } else {
      var n := |acts| - 1;
      TenantOrderExactly(acts[..n], t);
      ReachableIsSound(acts[..n]);
      var s := Exec(Init(), acts[..n]).value;
      if TenantInOrder(s, t) {
        StepInOrder(s, acts[n], t);
      } else {
        BrokenStays(s, acts[n], t);
      }
    }
  }

  ghost predicate AllOnBus(s: Sys, t: Uuid) {
    forall k: nat :: IsRow(t, s.outbox, s.visible, k) ==> Sent(s.outbox, s.bus, k)
  }

  /** Once the tenant's rows are all on the bus, being a prefix is the same as being sorted. */
  lemma {:induction false} OrderOfAll(s: Sys, t: Uuid)
    requires TablesOk(s) && DeliveryOk(s) && AllOnBus(s, t)
    ensures TenantInOrder(s, t) <==> FollowCreatedAt(s, t)
  {
    hide TablesOk, MarkedOk, BusOk, BatchOk, OrderOk, PrefixOk, DistinctRows, TenantFirstCopies, Ahead;
    RowsAreDistinct(s);
    forall k: nat | IsRow(t, s.outbox, s.visible, k)
      ensures s.outbox[k].body.env in TenantFirstCopies(t, s.bus)
    {
      SentHasFirstCopy(s, t, k);
    }
  }

  /** So the finished stream of a tenant follows created_at if and only if the run was never late. */
  lemma {:induction false} FinishedTenantOrder(acts: seq<Action>, t: Uuid)
    requires Exec(Init(), acts).Some? && AllOnBus(Exec(Init(), acts).value, t)
    ensures FollowCreatedAt(Exec(Init(), acts).value, t) <==> NeverLate(Init(), acts, t)
  {
    hide Exec, Init, TablesOk, DeliveryOk, CountsOk, TenantInOrder, NeverLate, FollowCreatedAt, AllOnBus;
    ReachableIsSound(acts);
    OrderOfAll(Exec(Init(), acts).value, t);
    TenantOrderExactly(acts, t);
  }

  // ---- the guard at the commit ----

  /**
   * The rows a commit makes visible are not older than any row of the tenant that is on the
   * bus or that the relay has already fetched: this can be read off before the commit.
   */
  ghost predicate OnTime(s: Sys, i: Uuid, t: Uuid)
    requires i in s.open
  {
    forall j: nat, k: nat ::
      j in Elements(s.open[i].staged) && Concerns(t, s.outbox, j) && IsRow(t, s.outbox, s.visible, k)
      && (Sent(s.outbox, s.bus, k) || k in s.batch) ==>
        s.outbox[k].createdAt <= s.outbox[j].createdAt
  }

  ghost predicate OnTimeRun(s: Sys, acts: seq<Action>, t: Uuid)
    requires Exec(s, acts).Some?
  {
    acts == [] ||
    var n := |acts| - 1;
    OnTimeRun(s, acts[..n], t) && (acts[n].Commit? ==> OnTime(Exec(s, acts[..n]).value, acts[n].id, t))
  }

  /** Every older committed row of the tenant is on the bus or comes earlier in the batch. */
  ghost predicate BatchInOrder(s: Sys, t: Uuid) {
    forall x: nat, j: nat ::
      x < |s.batch| && IsRow(t, s.outbox, s.visible, s.batch[x]) && IsRow(t, s.outbox, s.visible, j)
      && s.outbox[j].createdAt < s.outbox[s.batch[x]].createdAt ==>
        Sent(s.outbox, s.bus, j) || j in s.batch[..x]
  }

  lemma {:induction false} FetchInOrder(s: Sys, rows: seq<nat>, t: Uuid)
    requires DeliveryOk(s) && IsFetch(rows, BATCH, s.outbox, s.visible, s.published)
    ensures BatchInOrder(s.(batch := rows), t)
  {
    hide EventIds, BusOk, OrderOk, PrefixOk, BatchOk;
    forall x: nat, j: nat | x < |rows| && IsRow(t, s.outbox, s.visible, rows[x]) && IsRow(t, s.outbox, s.visible, j)
                            && s.outbox[j].createdAt < s.outbox[rows[x]].createdAt
      ensures Sent(s.outbox, s.bus, j) || j in rows[..x]
    {
      if j !in s.published {
        assert Unpublished(s.outbox, s.visible, s.published, j);
        assert j in rows;
        var y :| 0 <= y < |rows| && rows[y] == j;
        assert y < x;
        assert rows[..x][y] == j;
      }
    }
  }

  /** The head of an ordered batch may be published; handling it keeps the batch in order. */
  lemma {:induction false} HeadInOrder(s: Sys, t: Uuid)
    requires BatchInOrder(s, t) && s.batch != [] && IsRow(t, s.outbox, s.visible, s.batch[0])
    ensures OlderSent(s, t, s.batch[0])
  {
    hide EventIds;
    assert s.batch[..0] == [];
  }

  lemma {:induction false} DropInOrder(s: Sys, u: Sys, t: Uuid)
    requires BatchInOrder(s, t) && s.batch != [] && u.batch == s.batch[1..]
    requires u.outbox == s.outbox && u.visible == s.visible && s.batch[0] < |s.outbox|
    requires EventIds(s.bus) <= EventIds(u.bus)
    requires s.outbox[s.batch[0]].body.Malformed? || Sent(u.outbox, u.bus, s.batch[0])
    ensures BatchInOrder(u, t)
  {
    hide EventIds;
    forall x: nat, j: nat | x < |u.batch| && IsRow(t, u.outbox, u.visible, u.batch[x]) && IsRow(t, u.outbox, u.visible, j)
                            && u.outbox[j].createdAt < u.outbox[u.batch[x]].createdAt
      ensures Sent(u.outbox, u.bus, j) || j in u.batch[..x]
    {
      assert u.batch[x] == s.batch[x + 1] && s.batch[..x + 1] == [s.batch[0]] + u.batch[..x];
    }
  }

  lemma {:induction false} ViewKeepsBatch(s: Sys, u: Sys, t: Uuid)
    requires BatchInOrder(s, t) && SameView(s, u, t) && (u.batch == s.batch || u.batch == [])
    requires forall k :: k in s.batch ==> k < |s.outbox|
    ensures BatchInOrder(u, t)
  {
    hide EventIds;
  }

  lemma {:induction false} CommitKeepsBatch(s: Sys, i: Uuid, t: Uuid)
    requires TablesOk(s) && DeliveryOk(s) && CanCommit(s, i) && BatchInOrder(s, t) && OnTime(s, i, t)
    ensures BatchInOrder(DoCommit(s, i), t)
  {
    hide TablesOk, MarkedOk, BusOk, OrderOk, PrefixOk, StagedOk, UniqueExternal, Elements, DoCommit, DistinctRows, EventIds;
    var u := DoCommit(s, i);
    CommitView(s, i, t, 0);
    forall x: nat, j: nat | x < |u.batch| && IsRow(t, u.outbox, u.visible, u.batch[x]) && IsRow(t, u.outbox, u.visible, j)
                            && u.outbox[j].createdAt < u.outbox[u.batch[x]].createdAt
      ensures Sent(u.outbox, u.bus, j) || j in u.batch[..x]
    {
      CommitView(s, i, t, j);
      CommitView(s, i, t, u.batch[x]);
      assert Unpublished(s.outbox, s.visible, s.published, s.batch[x]);
    }
  }

  lemma {:induction false} PublishKeepsBatch(s: Sys, ok: bool, copies: nat, t: Uuid)
    requires Enabled(s, Publish(ok, copies)) && BatchInOrder(s, t) && DistinctRows(s.outbox)
    ensures BatchInOrder(DoPublish(s, ok, copies), t)
  {
    hide EventIds, DistinctRows, TenantFirstCopies;
    var e := s.outbox[s.batch[0]].body.env;
    TenantFirstCopiesRepeat(t, s.bus, e, copies);
    RowIds(s.outbox);
    if ok {
      DropInOrder(s, DoPublish(s, ok, copies), t);
    }
  }

  /** With every commit on time, a step keeps the bus and the batch in order. */
  lemma {:induction false} OnTimeStep(s: Sys, a: Action, t: Uuid)
    requires TablesOk(s) && DeliveryOk(s) && Enabled(s, a) && TenantInOrder(s, t) && BatchInOrder(s, t)
    requires a.Commit? ==> OnTime(s, a.id, t)
    ensures TenantInOrder(Apply(s, a), t) && BatchInOrder(Apply(s, a), t)
  {
    hide TablesOk, MarkedOk, BusOk, OrderOk, PrefixOk, TenantInOrder, BatchInOrder, IsFetch, DoCommit, DoPublish,
         EventIds, OlderSent, DistinctRows, Elements;
    StepInOrder(s, a, t);
    RowsAreDistinct(s);
    match a
    case Commit(i) => CommitKeepsBatch(s, i, t);
    case Publish(ok, copies) =>
      if IsRow(t, s.outbox, s.visible, s.batch[0]) {
        HeadInOrder(s, t);
      }
      PublishKeepsBatch(s, ok, copies, t);
    case Fetch(rows) => FetchInOrder(s, rows, t);
    case Skip => DropInOrder(s, Apply(s, a), t);
    case _ =>
      OtherStepsKeepView(s, a, t);
      BatchRows(s);
      RelayHolds(s, a);
      ViewKeepsBatch(s, Apply(s, a), t);
  }

  lemma {:induction false} BatchRows(s: Sys)
    requires BatchOk(s.outbox, s.visible, s.published, s.batch, s.marking, s.bus)
    ensures forall k :: k in s.batch ==> k < |s.outbox| && k in s.visible
  {
    hide EventIds;
  }

  lemma {:induction false} RelayHolds(s: Sys, a: Action)
    requires Enabled(s, a) && !(a.Commit? || a.Publish? || a.Fetch? || a.Skip?)
    ensures Apply(s, a).batch == s.batch || Apply(s, a).batch == []
  {
    hide IsFetch, UniqueExternal, Writes, StagedOk, RowFor, ValidCreate, PreparedCreate, LockedBy, AuditFor, PatchTxFor;
  }

  lemma {:induction false} OnTimeKeepsOrder(acts: seq<Action>, t: Uuid)
    requires Exec(Init(), acts).Some? && OnTimeRun(Init(), acts, t)
    ensures TenantInOrder(Exec(Init(), acts).value, t) && BatchInOrder(Exec(Init(), acts).value, t)
  {
    hide TablesOk, DeliveryOk, CountsOk, Enabled, Apply, TenantInOrder, BatchInOrder, OnTime;
    if acts == [] {
      StartInOrder(t);
      StartBatchInOrder(t);
    } else {
      var n := |acts| - 1;
      OnTimeKeepsOrder(acts[..n], t);
      ReachableIsSound(acts[..n]);
      OnTimeStep(Exec(Init(), acts[..n]).value, acts[n], t);
    }
  }

  lemma {:induction false} StartBatchInOrder(t: Uuid)
    ensures BatchInOrder(Init(), t)
  {
  }

  /** Whatever the relay does from here on, the tenant stays in order. */
  ghost predicate OrderSafe(s: Sys, t: Uuid) {
    forall acts: seq<Action> :: RelayOnly(acts) && Exec(s, acts).Some? ==> TenantInOrder(Exec(s, acts).value, t)
  }

  lemma {:induction false} BatchEnvelopesHold(outbox: seq<OutboxRow>, rows: seq<nat>, k: nat)
    requires DistinctRows(outbox) && k < |outbox| && outbox[k].body.WellFormed?
    requires forall x :: 0 <= x < |rows| ==> rows[x] < |outbox|
    ensures outbox[k].body.env in BatchEnvelopes(outbox, rows) <==> k in rows
    decreases |rows|
  {
    hide DistinctRows;
    if rows != [] {
      BatchEnvelopesHold(outbox, rows[1..], k);
      assert rows == [rows[0]] + rows[1..];
      if rows[0] != k && outbox[rows[0]].body.WellFormed? {
        EnvelopesDiffer(outbox, rows[0], k);
      }
    }
  }

  /** Publishing the rest of the batch. */
  lemma {:induction false} FinishBatch(s: Sys) returns (acts: seq<Action>)
    requires Sound(s)
    ensures RelayOnly(acts) && Exec(s, acts).Some?
    ensures
      var u := Exec(s, acts).value;
      && u.outbox == s.outbox && u.visible == s.visible
      && u.bus == s.bus + BatchEnvelopes(s.outbox, s.batch)
    ensures forall k :: k in s.batch ==> k < |s.outbox| && k in s.visible
  {
    hide TablesOk, MarkedOk, BusOk, OrderOk, PrefixOk, CountsOk, Exec, Enabled, Apply, RowActions, RelayOnly;
    BatchRows(s);
    var first: seq<Action> := [];
    var u := s;
    EmptyRun(s);
    if s.marking.Some? {
      MarkStep(s, true);
      OneStep(s, Mark(true));
      first := [Mark(true)];
      u := DoMark(s, true);
    }
    var fates := seq(|s.batch|, _ => RowFate(PublishFate(Delivered, false, Delivered), true));
    BatchRun(u, fates);
    var rest := RowActions(s.outbox, s.batch, fates, true);
    RowActionsAreRelay(s.outbox, s.batch, fates, true);
    ExecConcat(s, first, rest);
    acts := first + rest;
    BothRelay(first, rest);
  }

  lemma {:induction false} BothRelay(first: seq<Action>, rest: seq<Action>)
    requires (first == [] || first == [Mark(true)]) && RelayOnly(rest)
    ensures RelayOnly(first + rest)
  {
  }

  /** When the younger row is on the bus and the older one is not, the order is broken. */
  lemma {:induction false} OvertakenBreaks(s: Sys, t: Uuid, j: nat, k: nat)
    requires IsRow(t, s.outbox, s.visible, j) && IsRow(t, s.outbox, s.visible, k)
    requires s.outbox[j].createdAt < s.outbox[k].createdAt
    requires s.outbox[k].body.env in s.bus && s.outbox[j].body.env !in s.bus
    requires DistinctRows(s.outbox) && BusOk(s.outbox, s.visible, s.bus)
    ensures !TenantInOrder(s, t)
  {
    hide DistinctRows, BusOk, TenantFirstCopies, Ahead, EventIds;
    var first := TenantFirstCopies(t, s.bus);
    SentFromBus(s, t, j);
    SentFromBus(s, t, k);
    if Ahead(first, s.outbox[j].body.env, s.outbox[k].body.env) {
      AheadIsIn(first, s.outbox[j].body.env, s.outbox[k].body.env);
    }
  }

  lemma {:induction false} SentFromBus(s: Sys, t: Uuid, k: nat)
    requires DistinctRows(s.outbox) && BusOk(s.outbox, s.visible, s.bus) && Concerns(t, s.outbox, k)
    ensures Sent(s.outbox, s.bus, k) <==> s.outbox[k].body.env in s.bus
    ensures s.outbox[k].body.env in TenantFirstCopies(t, s.bus) <==> s.outbox[k].body.env in s.bus
  {
    hide DistinctRows, BusOk, TenantFirstCopies;
    RowIds(s.outbox);
    SentHasFirstCopy(s, t, k);
    if Sent(s.outbox, s.bus, k) {
      SentMeansOnBus(s, k);
    }
  }

  /** After a commit that is not on time the relay alone can break the order. */
  lemma {:induction false} LateCommitBreaks(s: Sys, i: Uuid, t: Uuid) returns (acts: seq<Action>)
    requires Sound(s) && CanCommit(s, i) && !OnTime(s, i, t)
    ensures RelayOnly(acts) && Exec(DoCommit(s, i), acts).Some?
    ensures !TenantInOrder(Exec(DoCommit(s, i), acts).value, t)
  {
    hide TablesOk, MarkedOk, BusOk, BatchOk, OrderOk, PrefixOk, CountsOk, Elements, StagedOk, UniqueExternal, DoCommit,
         Exec, DistinctRows, EventIds, RelayOnly, TenantInOrder, Enabled, Apply;
    var j: nat, k: nat :|
      j in Elements(s.open[i].staged) && Concerns(t, s.outbox, j) && IsRow(t, s.outbox, s.visible, k)
      && (Sent(s.outbox, s.bus, k) || k in s.batch) && s.outbox[j].createdAt < s.outbox[k].createdAt;
    CommitView(s, i, t, j);
    CommitView(s, i, t, k);
    CommitStep(s, i);
    SoundStep(s, Commit(i));
    var u := DoCommit(s, i);
    RowsAreDistinct(s);
    HiddenUnsent(s.outbox, s.visible, s.bus, j);
    SentFromBus(s, t, j);
    SentFromBus(s, t, k);
    acts := FinishBatch(u);
    var v := Exec(u, acts).value;
    RelaySound(u, acts);
    RowsAreDistinct(v);
    BatchOfCommitted(s);
    assert forall x :: 0 <= x < |u.batch| ==> u.batch[x] in u.batch;
    BatchEnvelopesHold(u.outbox, u.batch, j);
    BatchEnvelopesHold(u.outbox, u.batch, k);
    OvertakenBreaks(v, t, j, k);
  }

  lemma {:induction false} BatchOfCommitted(s: Sys)
    requires Sound(s)
    ensures forall k :: k in s.batch ==> k < |s.outbox| && k in s.visible
  {
    hide TablesOk, MarkedOk, BusOk, BatchOk, OrderOk, PrefixOk, CountsOk;
    BatchRows(s);
  }

  lemma {:induction false} SoundStep(s: Sys, a: Action)
    requires Sound(s) && Enabled(s, a)
    ensures Sound(Apply(s, a))
  {
    hide TablesOk, DeliveryOk, CountsOk, Enabled, Apply;
    StepKeepsTables(s, a);
    StepKeepsDelivery(s, a);
    StepKeepsCounts(s, a);
  }

  lemma {:induction false} RelaySound(s: Sys, acts: seq<Action>)
    requires Sound(s) && Exec(s, acts).Some?
    ensures TablesOk(Exec(s, acts).value) && BusOk(Exec(s, acts).value.outbox, Exec(s, acts).value.visible, Exec(s, acts).value.bus)
  {
    hide TablesOk, MarkedOk, BusOk, BatchOk, OrderOk, PrefixOk, CountsOk, Exec;
    RunsStaySound(s, acts);
  }

  /** Adding relay steps to a run adds no commit. */
  lemma {:induction false} RelayStaysOnTime(acts: seq<Action>, more: seq<Action>, t: Uuid)
    requires Exec(Init(), acts).Some? && OnTimeRun(Init(), acts, t)
    requires RelayOnly(more) && Exec(Init(), acts + more).Some?
    ensures OnTimeRun(Init(), acts + more, t)
  {
    hide Enabled, Apply, OnTime, Init;
    if more == [] {
      assert acts + more == acts;
    } else {
      var n := |more| - 1;
      assert (acts + more)[..|acts + more| - 1] == acts + more[..n];
      ExecPrefix(Init(), acts + more, |acts + more| - 1);
      RelayStaysOnTime(acts, more[..n], t);
    }
  }

  lemma {:induction false} OnTimePrefix(acts: seq<Action>, n: nat, t: Uuid)
    requires Exec(Init(), acts).Some? && OnTimeRun(Init(), acts, t) && n <= |acts|
    ensures Exec(Init(), acts[..n]).Some? && OnTimeRun(Init(), acts[..n], t)
  {
    hide Enabled, Apply, OnTime, Init;
    if n < |acts| {
      OnTimePrefix(acts[..|acts| - 1], n, t);
      assert acts[..|acts| - 1][..n] == acts[..n];
    } else {
      assert acts[..n] == acts;
    }
  }

  /** Every moment of the run is safe for the tenant's order. */
  ghost predicate AlwaysSafe(acts: seq<Action>, t: Uuid) {
    forall n: nat :: n <= |acts| ==> SafeAt(acts, n, t)
  }

  ghost predicate SafeAt(acts: seq<Action>, n: nat, t: Uuid)
    requires n <= |acts|
  {
    Exec(Init(), acts[..n]).Some? && OrderSafe(Exec(Init(), acts[..n]).value, t)
  }

  lemma {:induction false} OnTimeIsSafe(acts: seq<Action>, t: Uuid)
    requires Exec(Init(), acts).Some? && OnTimeRun(Init(), acts, t)
    ensures OrderSafe(Exec(Init(), acts).value, t)
  {
    hide Exec, Init, OnTimeRun, TenantInOrder, RelayOnly, BatchInOrder;
    var s := Exec(Init(), acts).value;
    forall more: seq<Action> | RelayOnly(more) && Exec(s, more).Some?
      ensures TenantInOrder(Exec(s, more).value, t)
    {
      ExecConcat(Init(), acts, more);
      RelayStaysOnTime(acts, more, t);
      OnTimeKeepsOrder(acts + more, t);
    }
  }

  lemma {:induction false} LateIsUnsafe(acts: seq<Action>, t: Uuid) returns (n: nat)
    requires Exec(Init(), acts).Some? && !OnTimeRun(Init(), acts, t)
    ensures n <= |acts| && !SafeAt(acts, n, t)
  {
    hide Apply, Enabled, OnTime, Init, TenantInOrder, RelayOnly, Sound, CanCommit, DoCommit;
    var m := |acts| - 1;
    if !OnTimeRun(Init(), acts[..m], t) {
      n := LateIsUnsafe(acts[..m], t);
      assert acts[..m][..n] == acts[..n];
    } else {
      n := |acts|;
      assert acts[..n] == acts;
      var s := Exec(Init(), acts[..m]).value;
      ReachableIsSound(acts[..m]);
      assert acts[m] == Commit(acts[m].id);
      CommitEnabled(s, acts[m].id);
      CommitStep(s, acts[m].id);
      var more := LateCommitBreaks(s, acts[m].id, t);
    }
  }

  lemma {:induction false} CommitEnabled(s: Sys, i: Uuid)
    ensures Enabled(s, Commit(i)) <==> CanCommit(s, i)
  {
    hide CanCommit;
  }

  /**
   * The guard a committer could read: at every moment of a run the tenant's order is safe, whatever the
   * relay does next, if and only if every commit so far was on time.
   */
  lemma {:induction false} CommitGuardExactly(acts: seq<Action>, t: Uuid)
    requires Exec(Init(), acts).Some?
    ensures AlwaysSafe(acts, t) <==> OnTimeRun(Init(), acts, t)
  {
    hide Exec, Init, OnTimeRun, OrderSafe;
    if OnTimeRun(Init(), acts, t) {
      forall n: nat | n <= |acts|
        ensures SafeAt(acts, n, t)
      {
        OnTimePrefix(acts, n, t);
        OnTimeIsSafe(acts[..n], t);
      }
    } else {
      var n := LateIsUnsafe(acts, t);
    }
  }
}
