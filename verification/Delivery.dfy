/** What the relay and the bus keep, over every step: nothing lost, nothing made up, order per incident. */
module Delivery {
  import opened Prelude
  import opened Domain
  import opened Outbox
  import opened Machine
  import opened Tables

  /** The event of row k has reached the bus. */
  ghost predicate Sent(rows: seq<OutboxRow>, bus: seq<Envelope>, k: nat)
    requires k < |rows|
  {
    rows[k].eventId in EventIds(bus)
  }

  /** Row k is committed and holds exactly this envelope. */
  ghost predicate Holds(rows: seq<OutboxRow>, visible: set<nat>, k: nat, e: Envelope) {
    k in visible && k < |rows| && rows[k].body == WellFormed(e)
  }

  /** No loss: a row marked published is on the bus. */
  ghost predicate MarkedOk(rows: seq<OutboxRow>, visible: set<nat>, published: map<nat, Time>, bus: seq<Envelope>) {
    forall k :: k in published ==>
      k in visible && k < |rows| && rows[k].body.WellFormed? && Sent(rows, bus, k)
  }

  /** No phantoms: every message is the envelope of a committed row. */
  ghost predicate BusOk(rows: seq<OutboxRow>, visible: set<nat>, bus: seq<Envelope>) {
    forall e :: e in bus ==> exists k: nat :: Holds(rows, visible, k, e)
  }

  /** The fetched rows still to be handled, and the row whose mark is pending. */
  ghost predicate BatchOk(rows: seq<OutboxRow>, visible: set<nat>, published: map<nat, Time>, batch: seq<nat>,
                          marking: Option<nat>, bus: seq<Envelope>) {
    && (forall x :: 0 <= x < |batch| ==>
          Unpublished(rows, visible, published, batch[x]) && marking != Some(batch[x]))
    && (forall x, y :: 0 <= x < y < |batch| ==> batch[x] != batch[y])
    && (marking.Some? ==>
          && Unpublished(rows, visible, published, marking.value)
          && rows[marking.value].body.WellFormed? && Sent(rows, bus, marking.value))
  }

  /** Every older row of the same incident is on the bus or comes earlier in the batch. */
  ghost predicate OrderOk(rows: seq<OutboxRow>, visible: set<nat>, batch: seq<nat>, bus: seq<Envelope>) {
    forall x, a :: 0 <= x < |batch| && batch[x] < |rows| && 0 <= a < batch[x] && a in visible
                   && SameEntity(rows, a, batch[x]) ==>
                     Sent(rows, bus, a) || a in batch[..x]
  }

  /** Per incident, the first copies on the bus are a prefix of the committed rows. */
  ghost predicate PrefixOk(rows: seq<OutboxRow>, visible: set<nat>, bus: seq<Envelope>) {
    forall i: Uuid :: FirstCopies(i, bus) <= Committed(i, rows, visible)
  }

  ghost predicate DeliveryOk(s: Sys) {
    && MarkedOk(s.outbox, s.visible, s.published, s.bus)
    && BusOk(s.outbox, s.visible, s.bus)
    && BatchOk(s.outbox, s.visible, s.published, s.batch, s.marking, s.bus)
    && OrderOk(s.outbox, s.visible, s.batch, s.bus)
    && PrefixOk(s.outbox, s.visible, s.bus)
  }

  // ---- the table grows ----

  lemma {:induction false} AppendKeepsDelivery(s: Sys, r: OutboxRow, w: set<nat>)
    requires DeliveryOk(s)
    requires forall k :: k in s.visible ==> k < |s.outbox|
    requires w == s.visible || (w == s.visible + {|s.outbox|} && r.body.Malformed?)
    ensures DeliveryOk(s.(outbox := s.outbox + [r], visible := w))
  {
    hide Committed, FirstCopies, EventIds;
    var rows := s.outbox + [r];
    forall e | e in s.bus
      ensures exists k: nat :: Holds(rows, w, k, e)
    {
      var k: nat :| Holds(s.outbox, s.visible, k, e);
      assert Holds(rows, w, k, e);
    }
    forall x, a | 0 <= x < |s.batch| && s.batch[x] < |rows| && 0 <= a < s.batch[x] && a in w
                  && SameEntity(rows, a, s.batch[x])
      ensures Sent(rows, s.bus, a) || a in s.batch[..x]
    {
      assert SameEntity(s.outbox, a, s.batch[x]) && a in s.visible;
    }
    forall i: Uuid
      ensures FirstCopies(i, s.bus) <= Committed(i, rows, w)
    {
      CommittedGrow(i, s.outbox, w, r);
      CommittedDepends(i, s.outbox, w, s.visible);
    }
  }

  /** The rows a commit on `i` makes visible are about `i` and lie behind its committed rows. */
  ghost predicate Behind(s: Sys, i: Uuid, k: nat) {
    && k < |s.outbox| && s.outbox[k].About(i) && k !in s.visible
    && forall b :: b in s.visible && b < |s.outbox| && s.outbox[b].About(i) ==> b < k
  }

  lemma {:induction false} StagedBehindVisible(s: Sys, i: Uuid)
    requires TablesOk(s) && i in s.open
    ensures forall k :: k in Elements(s.open[i].staged) ==> Behind(s, i, k)
  {
    hide OutboxOk, HistoryOk, PlannedOk, RowsFromThePast, PlanOk, PatchPayloads, DraftOk, WrittenBy, FirstRow;
    assert OpenOk(i, s.open[i], s.incidents, s.outbox, s.visible, s.clock, s.nextId);
    forall k | k in Elements(s.open[i].staged)
      ensures Behind(s, i, k)
    {
      var x :| 0 <= x < |s.open[i].staged| && s.open[i].staged[x] == k;
    }
  }

  lemma {:induction false} CommitKeepsDelivery(s: Sys, i: Uuid)
    requires TablesOk(s) && DeliveryOk(s) && CanCommit(s, i)
    ensures DeliveryOk(DoCommit(s, i))
  {
    hide TablesOk, Committed, FirstCopies, EventIds, UniqueExternal, StagedOk, SuccessRows;
    var s' := DoCommit(s, i);
    StagedBehindVisible(s, i);
    forall e | e in s.bus
      ensures exists k: nat :: Holds(s'.outbox, s'.visible, k, e)
    {
      var k: nat :| Holds(s.outbox, s.visible, k, e);
      assert Holds(s'.outbox, s'.visible, k, e);
    }
    forall x, a | 0 <= x < |s.batch| && s.batch[x] < |s.outbox| && 0 <= a < s.batch[x] && a in s'.visible
                  && SameEntity(s.outbox, a, s.batch[x])
      ensures Sent(s.outbox, s.bus, a) || a in s.batch[..x]
    {
      assert a in s.visible;
    }
    forall j: Uuid
      ensures FirstCopies(j, s.bus) <= Committed(j, s'.outbox, s'.visible)
    {
      CommitReads(s, i, j);
    }
  }

  // ---- the relay works ----

  lemma {:induction false} FetchKeepsDelivery(s: Sys, fetched: seq<nat>)
    requires TablesOk(s) && DeliveryOk(s) && Enabled(s, Fetch(fetched))
    ensures DeliveryOk(s.(batch := fetched))
  {
    hide OpensOk, HistoryOk, PlannedOk, RowsFromThePast, DistinctRows, PrefixOk, BusOk, EventIds;
    forall x, a | 0 <= x < |fetched| && fetched[x] < |s.outbox| && 0 <= a < fetched[x] && a in s.visible
                  && SameEntity(s.outbox, a, fetched[x])
      ensures Sent(s.outbox, s.bus, a) || a in fetched[..x]
    {
      assert s.outbox[a].createdAt < s.outbox[fetched[x]].createdAt;
      if a !in s.published {
        assert Unpublished(s.outbox, s.visible, s.published, a);
        assert a in fetched;
        var y :| 0 <= y < |fetched| && fetched[y] == a;
        assert y < x;
        assert fetched[..x][y] == a;
      }
    }
  }

  lemma {:induction false} SkipKeepsDelivery(s: Sys)
    requires DeliveryOk(s) && Enabled(s, Skip)
    ensures DeliveryOk(s.(batch := s.batch[1..]))
  {
    hide PrefixOk, BusOk, EventIds;
    DropKeepsOrder(s.outbox, s.visible, s.batch, s.bus);
  }

  /** Dropping the head keeps the order when it is malformed or already on the bus. */
  lemma {:induction false} DropKeepsOrder(rows: seq<OutboxRow>, visible: set<nat>, batch: seq<nat>, bus: seq<Envelope>)
    requires OrderOk(rows, visible, batch, bus) && batch != [] && batch[0] < |rows|
    requires rows[batch[0]].body.Malformed? || Sent(rows, bus, batch[0])
    ensures OrderOk(rows, visible, batch[1..], bus)
  {
    hide EventIds;
    var rest := batch[1..];
    forall x, a | 0 <= x < |rest| && rest[x] < |rows| && 0 <= a < rest[x] && a in visible
                  && SameEntity(rows, a, rest[x])
      ensures Sent(rows, bus, a) || a in rest[..x]
    {
      assert rest[x] == batch[x + 1] && batch[..x + 1] == [batch[0]] + rest[..x];
    }
  }

  /** On the bus an event id names one envelope: that of its row. */
  lemma {:induction false} MessageOfRow(rows: seq<OutboxRow>, visible: set<nat>, bus: seq<Envelope>, k: nat, d: Envelope)
    requires DistinctRows(rows) && BusOk(rows, visible, bus)
    requires k < |rows| && rows[k].body.WellFormed? && d in bus && d.eventId == rows[k].eventId
    ensures d == rows[k].body.env
  {
    hide EventIds;
    var a: nat :| Holds(rows, visible, a, d);
    assert rows[a].eventId == rows[k].eventId;
  }

  /** When every older row of `i` is on the bus, so is the whole stretch before row k. */
  lemma {:induction false} CoveredBefore(i: Uuid, rows: seq<OutboxRow>, visible: set<nat>, bus: seq<Envelope>, k: nat)
    requires DistinctRows(rows) && BusOk(rows, visible, bus)
    requires k < |rows| && k in visible && rows[k].About(i)
    requires FirstCopies(i, bus) <= Committed(i, rows, visible)
    requires forall a :: a in visible && a < k && rows[a].About(i) ==> Sent(rows, bus, a)
    ensures |Committed(i, rows[..k], visible)| <= |FirstCopies(i, bus)|
  {
    hide BusOk, Committed, FirstCopies, DistinctRows;
    var before, all, first := Committed(i, rows[..k], visible), Committed(i, rows, visible), FirstCopies(i, bus);
    CommittedSplit(i, rows, visible, k);
    CommittedDistinct(i, rows, visible);
    if |first| < |before| {
      var e := before[|first|];
      assert e == (before + [rows[k].body.env])[|first|] == all[|first|];
      assert forall y :: 0 <= y < |first| ==> first[y] == all[y] && all[y] != e;
      var a := CommittedFrom(i, rows[..k], visible, e);
      RowIds(rows);
      var d :| d in bus && d.eventId == e.eventId;
      MessageOfRow(rows, visible, bus, a, d);
      forall d' | d' in bus && d'.eventId == e.eventId
        ensures d' == e
      {
        MessageOfRow(rows, visible, bus, a, d');
      }
      var x := FirstCopyExists(i, bus, e);
      assert false;
    }
  }

  lemma {:induction false} RowIds(rows: seq<OutboxRow>)
    requires DistinctRows(rows)
    ensures forall a :: 0 <= a < |rows| && rows[a].body.WellFormed? ==> rows[a].body.env.eventId == rows[a].eventId
  {
  }

  /** The next row of an incident to be published extends its first copies by the right event. */
  lemma {:induction false} NextInLine(i: Uuid, rows: seq<OutboxRow>, visible: set<nat>, bus: seq<Envelope>, k: nat)
    requires DistinctRows(rows) && BusOk(rows, visible, bus)
    requires k < |rows| && k in visible && rows[k].About(i) && !Sent(rows, bus, k)
    requires FirstCopies(i, bus) <= Committed(i, rows, visible)
    requires forall a :: a in visible && a < k && rows[a].About(i) ==> Sent(rows, bus, a)
    ensures FirstCopies(i, bus) + [rows[k].body.env] <= Committed(i, rows, visible)
  {
    hide BusOk, Committed, FirstCopies, DistinctRows;
    var before, all, first := Committed(i, rows[..k], visible), Committed(i, rows, visible), FirstCopies(i, bus);
    var e := rows[k].body.env;
    CommittedSplit(i, rows, visible, k);
    CoveredBefore(i, rows, visible, bus, k);
    RowIds(rows);
    FirstCopiesAreOnBus(i, bus);
    assert all[|before|] == e by {
      assert (before + [e])[|before|] == e;
    }
    assert e !in bus;
    assert forall x :: 0 <= x < |first| ==> first[x] == all[x] && all[x] != e;
    assert |first| == |before|;
    assert first == all[..|first|] == before;
  }

  /** One more copy of the row at the head of the line. */
  lemma {:induction false} OneCopyKeepsPrefix(rows: seq<OutboxRow>, visible: set<nat>, bus: seq<Envelope>, k: nat)
    requires DistinctRows(rows) && BusOk(rows, visible, bus) && PrefixOk(rows, visible, bus)
    requires k < |rows| && k in visible && rows[k].body.WellFormed?
    requires forall a :: a in visible && a < k && SameEntity(rows, a, k) ==> Sent(rows, bus, a)
    ensures PrefixOk(rows, visible, bus + [rows[k].body.env])
  {
    hide BusOk, Committed, FirstCopies, DistinctRows, EventIds;
    var e := rows[k].body.env;
    RowIds(rows);
    forall i: Uuid
      ensures FirstCopies(i, bus + [e]) <= Committed(i, rows, visible)
    {
      FirstCopiesGrow(i, bus, e);
      assert FirstCopies(i, bus) <= Committed(i, rows, visible);
      assert FirstCopies(i, bus) + [] == FirstCopies(i, bus);
      if e.entity == i && !Sent(rows, bus, k) {
        NextInLine(i, rows, visible, bus, k);
      }
    }
  }

  lemma {:induction false} OneCopyKeepsTheRest(s: Sys, k: nat)
    requires MarkedOk(s.outbox, s.visible, s.published, s.bus) && BusOk(s.outbox, s.visible, s.bus)
    requires BatchOk(s.outbox, s.visible, s.published, s.batch, s.marking, s.bus)
    requires OrderOk(s.outbox, s.visible, s.batch, s.bus)
    requires k in s.visible && k < |s.outbox| && s.outbox[k].body.WellFormed?
    ensures
      var bus := s.bus + [s.outbox[k].body.env];
      && MarkedOk(s.outbox, s.visible, s.published, bus) && BusOk(s.outbox, s.visible, bus)
      && BatchOk(s.outbox, s.visible, s.published, s.batch, s.marking, bus)
      && OrderOk(s.outbox, s.visible, s.batch, bus)
      && EventIds(bus) == EventIds(s.bus) + {s.outbox[k].body.env.eventId}
  {
    hide EventIds, SameEntity;
    var e := s.outbox[k].body.env;
    FirstCopiesGrow(0, s.bus, e);
    forall d | d in s.bus + [e]
      ensures exists a: nat :: Holds(s.outbox, s.visible, a, d)
    {
      if d in s.bus {
        var a: nat :| Holds(s.outbox, s.visible, a, d);
      } else {
        assert Holds(s.outbox, s.visible, k, d);
      }
    }
  }

  lemma {:induction false} CopiesKeepDelivery(s: Sys, k: nat, n: nat)
    requires DistinctRows(s.outbox) && DeliveryOk(s)
    requires k in s.visible && k < |s.outbox| && s.outbox[k].body.WellFormed?
    requires forall a :: a in s.visible && a < k && SameEntity(s.outbox, a, k) ==> Sent(s.outbox, s.bus, a)
    ensures
      var s' := s.(bus := s.bus + Repeat(s.outbox[k].body.env, n));
      && DeliveryOk(s')
      && (n > 0 ==> Sent(s'.outbox, s'.bus, k))
      && forall a :: 0 <= a < |s.outbox| && Sent(s.outbox, s.bus, a) ==> Sent(s'.outbox, s'.bus, a)
  {
    hide EventIds, MarkedOk, BusOk, BatchOk, OrderOk, PrefixOk, DistinctRows, SameEntity;
    var e := s.outbox[k].body.env;
    if n == 0 {
      assert s.bus + Repeat(e, n) == s.bus;
    } else {
      CopiesKeepDelivery(s, k, n - 1);
      var t := s.(bus := s.bus + Repeat(e, n - 1));
      assert s.bus + Repeat(e, n) == t.bus + [e];
      RowIds(s.outbox);
      OneCopyKeepsPrefix(t.outbox, t.visible, t.bus, k);
      OneCopyKeepsTheRest(t, k);
    }
  }

  lemma {:induction false} PublishKeepsDelivery(s: Sys, ok: bool, copies: nat)
    requires TablesOk(s) && DeliveryOk(s) && Enabled(s, Publish(ok, copies))
    ensures DeliveryOk(DoPublish(s, ok, copies))
  {
    hide OpensOk, HistoryOk, PlannedOk, RowsFromThePast, DistinctRows, PrefixOk, BusOk, MarkedOk, EventIds;
    var k := s.batch[0];
    var s' := s.(bus := s.bus + Repeat(s.outbox[k].body.env, copies));
    forall a | a in s.visible && a < k && SameEntity(s.outbox, a, k)
      ensures Sent(s.outbox, s.bus, a)
    {
      assert s.batch[..0] == [];
    }
    CopiesKeepDelivery(s, k, copies);
    if ok {
      DropKeepsOrder(s'.outbox, s'.visible, s'.batch, s'.bus);
    }
  }

  lemma {:induction false} MarkKeepsDelivery(s: Sys, ok: bool)
    requires DeliveryOk(s) && s.marking.Some?
    ensures DeliveryOk(DoMark(s, ok))
  {
    hide EventIds, PrefixOk, BusOk, OrderOk;
  }

  /** Every step keeps delivery in order. */
  lemma {:induction false} StepKeepsDelivery(s: Sys, a: Action)
    requires TablesOk(s) && DeliveryOk(s) && Enabled(s, a)
    ensures DeliveryOk(Apply(s, a))
  {
    hide OutboxOk, OpensOk, HistoryOk, PlannedOk, RowsFromThePast, IsFetch, UniqueExternal, Writes, StagedOk, RowFor,
         ValidCreate, MarkedOk, BusOk, PrefixOk, PreparedCreate, LockedBy, AuditFor, EventIds, PatchTxFor;
    match a
    case Enqueue(i) =>
      OutboxBounds(s);
      AppendKeepsDelivery(s, RowFor(s, s.open[i]), s.visible);
    case Commit(i) => CommitKeepsDelivery(s, i);
    case InsertMalformed(tenant) =>
      OutboxBounds(s);
      AppendKeepsDelivery(s, OutboxRow(s.nextId, tenant, s.clock, Malformed), s.visible + {|s.outbox|});
    case Fetch(fetched) => FetchKeepsDelivery(s, fetched);
    case Skip => SkipKeepsDelivery(s);
    case Publish(ok, copies) => PublishKeepsDelivery(s, ok, copies);
    case Mark(ok) => MarkKeepsDelivery(s, ok);
    case _ =>
  }
}
