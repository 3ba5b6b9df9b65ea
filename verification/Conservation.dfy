/** Counting copies: what a Publish call, a mark and a failed mark each contribute to the bus. */
module Conservation {
  import opened Prelude
  import opened Domain
  import opened Outbox
  import opened Machine
  import opened Tables
  import opened Delivery

  /** Successful publishes of row k that the relay has accounted for, one way or the other. */
  function Accounted(s: Sys, k: nat): nat {
    (if k in s.published then 1 else 0) + s.badMarks[k] + (if s.marking == Some(k) then 1 else 0)
  }

  ghost predicate CountsOk(s: Sys) {
    && (forall k :: k in s.calls ==> k < |s.outbox|)
    && (forall k :: k in s.badMarks ==> k < |s.outbox|)
    && (forall k :: 0 <= k < |s.outbox| && s.outbox[k].body.WellFormed? ==>
          Accounted(s, k) <= Copies(s.bus, s.outbox[k].eventId) <= 2 * s.calls[k])
  }

  ghost predicate ExactOk(s: Sys) {
    forall k :: 0 <= k < |s.outbox| && s.outbox[k].body.WellFormed? ==>
      Accounted(s, k) == Copies(s.bus, s.outbox[k].eventId)
  }

  /** A failed publish delivers nothing and a successful one exactly one copy. */
  predicate Clean(a: Action) {
    a.Publish? ==> a.copies == if a.ok then 1 else 0
  }

  lemma {:induction false} CopiesRepeat(bus: seq<Envelope>, e: Envelope, n: nat, id: Uuid)
    ensures Copies(bus + Repeat(e, n), id) == Copies(bus, id) + if e.eventId == id then n else 0
  {
    if n == 0 {
      assert bus + Repeat(e, n) == bus;
    } else {
      CopiesRepeat(bus, e, n - 1, id);
      assert bus + Repeat(e, n) == bus + Repeat(e, n - 1) + [e];
      CopiesGrow(bus + Repeat(e, n - 1), e, id);
    }
  }

  /** An event that no row carried so far is not on the bus. */
  lemma {:induction false} NewEventHasNoCopy(s: Sys, id: Uuid)
    requires DistinctRows(s.outbox) && BusOk(s.outbox, s.visible, s.bus)
    requires forall k :: 0 <= k < |s.outbox| ==> s.outbox[k].eventId != id
    ensures Copies(s.bus, id) == 0
  {
    hide DistinctRows;
    RowIds(s.outbox);
    CopiesPositive(s.bus, id);
    forall e | e in s.bus
      ensures e.eventId != id
    {
      var k: nat :| Holds(s.outbox, s.visible, k, e);
    }
  }

  lemma {:induction false} AppendKeepsCounts(s: Sys, r: OutboxRow, s': Sys)
    requires OutboxOk(s.outbox, s.visible, s.clock, s.nextId) && BusOk(s.outbox, s.visible, s.bus)
    requires MarkedOk(s.outbox, s.visible, s.published, s.bus)
    requires BatchOk(s.outbox, s.visible, s.published, s.batch, s.marking, s.bus)
    requires CountsOk(s)
    requires forall k :: 0 <= k < |s.outbox| ==> s.outbox[k].eventId != r.eventId
    requires s'.outbox == s.outbox + [r] && s'.bus == s.bus && s'.published == s.published
    requires s'.marking == s.marking && s'.calls == s.calls && s'.badMarks == s.badMarks
    ensures CountsOk(s') && (ExactOk(s) ==> ExactOk(s'))
  {
    hide Copies, EventIds, DistinctRows, SameEntity, BusOk;
    NewEventHasNoCopy(s, r.eventId);
    assert Accounted(s', |s.outbox|) == 0;
    forall k | 0 <= k < |s.outbox|
      ensures Accounted(s', k) == Accounted(s, k)
    {
    }
  }

  lemma {:induction false} PublishKeepsCounts(s: Sys, ok: bool, copies: nat)
    requires DistinctRows(s.outbox) && BatchOk(s.outbox, s.visible, s.published, s.batch, s.marking, s.bus)
    requires CountsOk(s) && Enabled(s, Publish(ok, copies))
    ensures CountsOk(DoPublish(s, ok, copies))
    ensures ExactOk(s) && Clean(Publish(ok, copies)) ==> ExactOk(DoPublish(s, ok, copies))
  {
    hide Copies, EventIds;
    var s' := DoPublish(s, ok, copies);
    var b := s.batch[0];
    forall k | 0 <= k < |s.outbox| && s.outbox[k].body.WellFormed?
      ensures Copies(s'.bus, s.outbox[k].eventId) ==
              Copies(s.bus, s.outbox[k].eventId) + if k == b then copies else 0
      ensures Accounted(s', k) == Accounted(s, k) + if k == b && ok then 1 else 0
      ensures s'.calls[k] == s.calls[k] + if k == b then 1 else 0
    {
      CopiesRepeat(s.bus, s.outbox[b].body.env, copies, s.outbox[k].eventId);
      if k < b {
        assert s.outbox[k].eventId != s.outbox[b].eventId;
      }
    }
  }

  lemma {:induction false} MarkKeepsCounts(s: Sys, ok: bool)
    requires BatchOk(s.outbox, s.visible, s.published, s.batch, s.marking, s.bus)
    requires CountsOk(s) && s.marking.Some?
    ensures CountsOk(DoMark(s, ok)) && (ExactOk(s) ==> ExactOk(DoMark(s, ok)))
  {
    hide Copies, EventIds;
    var s' := DoMark(s, ok);
    forall k | 0 <= k < |s.outbox|
      ensures Accounted(s', k) == Accounted(s, k)
    {
    }
  }

  lemma {:induction false} RestartKeepsCounts(s: Sys)
    requires BatchOk(s.outbox, s.visible, s.published, s.batch, s.marking, s.bus)
    requires CountsOk(s)
    ensures CountsOk(DoRestart(s)) && (ExactOk(s) ==> ExactOk(DoRestart(s)))
  {
    hide Copies, EventIds;
    var s' := DoRestart(s);
    forall k | 0 <= k < |s.outbox|
      ensures Accounted(s', k) == Accounted(s, k)
    {
    }
  }

  lemma {:induction false} StepKeepsCounts(s: Sys, a: Action)
    requires TablesOk(s) && DeliveryOk(s) && CountsOk(s) && Enabled(s, a)
    ensures CountsOk(Apply(s, a))
    ensures ExactOk(s) && Clean(a) ==> ExactOk(Apply(s, a))
  {
    hide OutboxOk, OpensOk, HistoryOk, PlannedOk, RowsFromThePast, IsFetch, UniqueExternal, Writes, StagedOk, RowFor,
         ValidCreate, MarkedOk, BusOk, PrefixOk, OrderOk, BatchOk, PreparedCreate, LockedBy, AuditFor, EventIds,
         PatchTxFor, Copies;
    match a
    case Enqueue(i) => AppendKeepsCounts(s, RowFor(s, s.open[i]), Apply(s, a));
    case InsertMalformed(t) =>
      OutboxBounds(s);
      AppendKeepsCounts(s, OutboxRow(s.nextId, t, s.clock, Malformed), Apply(s, a));
    case Publish(ok, copies) =>
      OutboxRowsDistinct(s);
      PublishKeepsCounts(s, ok, copies);
    case Mark(ok) => MarkKeepsCounts(s, ok);
    case Restart => RestartKeepsCounts(s);
    case _ => SameCounts(s, Apply(s, a));
  }

  lemma {:induction false} OutboxRowsDistinct(s: Sys)
    requires OutboxOk(s.outbox, s.visible, s.clock, s.nextId)
    ensures DistinctRows(s.outbox)
  {
    hide DistinctRows, SameEntity;
  }

  lemma {:induction false} SameCounts(s: Sys, s': Sys)
    requires CountsOk(s)
    requires s'.outbox == s.outbox && s'.bus == s.bus && s'.published == s.published
    requires s'.marking == s.marking && s'.calls == s.calls && s'.badMarks == s.badMarks
    ensures CountsOk(s') && (ExactOk(s) ==> ExactOk(s'))
  {
    hide Copies;
    forall k | 0 <= k < |s.outbox|
      ensures Accounted(s', k) == Accounted(s, k)
    {
    }
  }
}
