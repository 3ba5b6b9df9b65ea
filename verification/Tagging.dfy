/** What the closed loop does to the tags of each incident. */
module Tagging {
  import opened Prelude
  import opened Lifecycle
  import opened Domain
  import opened Auth
  import opened Outbox
  import opened Machine
  import opened Tables
  import opened Delivery
  import opened Conservation
  import opened History
  import opened Guarantees
  import opened Serial
  import opened Publishing
  import opened Progress
  import opened Connector
  import opened Feedback
  import opened Quiescence

  // ---- the created event of an incident ----

  lemma {:induction false} EventOfSomeEntry(es: seq<Entry>, e: Envelope) returns (k: nat)
    requires e in EventsOf(es)
    ensures k < |es| && e in es[k].events
  {
    var n := |es| - 1;
    if e in es[n].events {
      k := n;
    } else {
      k := EventOfSomeEntry(es[..n], e);
    }
  }

  /** Among the events of an incident only the very first is a created event. */
  lemma {:induction false} OnlyFirstIsCreated(i: Uuid, es: seq<Entry>, e: Envelope)
    requires LogOk(i, es) && e in EventsOf(es) && e.payload.Created?
    ensures es[0].events != [] && e == es[0].events[0]
  {
    hide EntryOk, Follows, EventsOf, Normal, FromRow;
    var k := EventOfSomeEntry(es, e);
    assert EntryOk(es[k]);
    EntryPayloads(es[k]);
    var x :| 0 <= x < |es[k].events| && es[k].events[x] == e;
    assert k > 0 ==> Follows(es[k - 1].row, es[k]);
    FollowerHasPlan(es, k);
  }

  lemma {:induction false} FollowerHasPlan(es: seq<Entry>, k: nat)
    requires 0 < k < |es| ==> Follows(es[k - 1].row, es[k])
    ensures 0 < k < |es| ==> es[k].plan.Some?
  {
  }

  /** The created event carries the first row's tags and its creator. */
  lemma {:induction false} CreatedEventFacts(i: Uuid, es: seq<Entry>)
    requires LogOk(i, es)
    ensures es[0].events != []
    ensures
      var e := es[0].events[0];
      && e.payload.Created? && e.payload.snapshot.tags == es[0].row.tags
      && e.actor == es[0].audit.actor && e.entity == i
  {
    hide Follows, PlanOk, PatchPayloads;
    assert EntryOk(es[0]);
    var e := es[0].events[0];
    assert Normal(e.payload.snapshot).tags == FromRow(es[0].row).tags;
  }

  lemma {:induction false} FirstEvent(i: Uuid, es: seq<Entry>)
    requires LogOk(i, es)
    ensures es[0].events != [] && es[0].events[0] in EventsOf(es)
  {
    hide EntryOk, Follows;
    if |es| == 1 {
      CreatedEventFacts(i, es);
      assert es[..0] == [];
      assert EventsOf(es) == [] + es[0].events;
    } else {
      LogPrefix(i, es, |es| - 1);
      FirstEvent(i, es[..|es| - 1]);
    }
  }

  lemma {:induction false} HistoryOf(s: Sys, i: Uuid)
    requires TablesOk(s) && i in s.incidents
    ensures i in s.log && LogOk(i, s.log[i]) && s.log[i] != []
    ensures Committed(i, s.outbox, s.visible) == EventsOf(s.log[i])
  {
    hide OutboxOk, OpensOk, PlannedOk, RowsFromThePast, LogOk, EventsOf, Committed;
    IncidentInHistory(s, i);
    NonEmptyLog(i, s.log[i]);
  }

  /** A created message on the bus is the one created event of its incident. */
  lemma {:induction false} CreatedMessage(s: Sys, e: Envelope)
    requires Sound(s) && e in s.bus && e.payload.Created?
    ensures e.entity in s.incidents && e.entity in s.log && s.log[e.entity] != []
    ensures s.log[e.entity][0].events != [] && e == s.log[e.entity][0].events[0]
    ensures e.payload.snapshot.tags == s.log[e.entity][0].row.tags
    ensures e.actor == s.log[e.entity][0].audit.actor
  {
    hide TablesOk, CountsOk, MarkedOk, BatchOk, OrderOk, PrefixOk, LogOk, Committed, EventsOf;
    var i := e.entity;
    var k: nat :| Holds(s.outbox, s.visible, k, e);
    CommittedContains(i, s.outbox, s.visible, k);
    KnownIncident(s, i);
    HistoryOf(s, i);
    OnlyFirstIsCreated(i, s.log[i], e);
    CreatedEventFacts(i, s.log[i]);
  }

  lemma {:induction false} KnownIncident(s: Sys, i: Uuid)
    requires TablesOk(s) && Committed(i, s.outbox, s.visible) != []
    ensures i in s.incidents
  {
    hide OutboxOk, OpensOk, PlannedOk, RowsFromThePast, Explains, Committed;
  }

  /** Once everything is published, the created event of every incident is on the bus. */
  lemma {:induction false} CreatedIsOnBus(s: Sys, i: Uuid)
    requires Sound(s) && Drained(s) && i in s.incidents
    ensures i in s.log && s.log[i] != [] && s.log[i][0].events != [] && s.log[i][0].events[0] in s.bus
  {
    hide TablesOk, DeliveryOk, CountsOk, LogOk, Committed, EventsOf, FirstCopies, Drained;
    AllSent(s, i);
    HistoryOf(s, i);
    FirstEvent(i, s.log[i]);
    FirstCopiesAreOnBus(i, s.bus);
  }

  // ---- the tags over a run of the loop ----

  /** The messages whose handling is over: all taken ones, but for the one whose Patch is under way. */
  function Done(l: Loop): nat {
    if Quiet(l.sys) || l.read == 0 then l.read else l.read - 1
  }

  /** The connector is done with a created message about `i` that it acts on and may patch. */
  ghost predicate Enlisted(l: Loop, i: Uuid, tenant: Uuid)
    requires i in l.sys.incidents
  {
    && l.sys.incidents[i].tenant == tenant
    && exists x :: 0 <= x < Done(l) && x < |l.sys.bus| && l.sys.bus[x].entity == i && ActsOn(l.sys.bus[x])
  }

  /** The tags `i` was created with. */
  ghost function Original(s: Sys, i: Uuid): seq<string>
    requires i in s.log && s.log[i] != []
  {
    s.log[i][0].row.tags.GetOr([])
  }

  /** The connector's are the only tag edits so far: the tags are the original ones, enriched once the message was handled. */
  ghost predicate OnlyEnriched(l: Loop, i: Uuid, tenant: Uuid) {
    && i in l.sys.incidents && i in l.sys.log && l.sys.log[i] != []
    && l.sys.incidents[i].tags.GetOr([]) ==
       if Enlisted(l, i, tenant) then Enriched(Original(l.sys, i)) else Original(l.sys, i)
  }

  /** No commit on the incident wrote its tags. */
  ghost predicate Unedited(es: seq<Entry>) {
    forall k :: 0 < k < |es| && es[k].plan.Some? ==> es[k].plan.value.upd.tags.None?
  }

  lemma {:induction false} UneditedTagsStay(i: Uuid, es: seq<Entry>)
    requires LogOk(i, es) && Unedited(es)
    ensures es[|es| - 1].row.tags == es[0].row.tags
  {
    hide EntryOk, PlanOk;
    if |es| > 1 {
      LogPrefix(i, es, |es| - 1);
      UneditedTagsStay(i, es[..|es| - 1]);
      assert Follows(es[|es| - 2].row, es[|es| - 1]);
    }
  }

  /** Where the connector starts from: after any run that left the tags of `i` alone, with the whole bus still to read. */
  lemma {:induction false} StartsUnedited(acts: seq<Action>, i: Uuid, tenant: Uuid)
    requires Exec(Init(), acts).Some?
    requires
      var s := Exec(Init(), acts).value;
      Quiet(s) && i in s.incidents && (i in s.log ==> Unedited(s.log[i]))
    ensures Started(Loop(Exec(Init(), acts).value, 0)) && OnlyEnriched(Loop(Exec(Init(), acts).value, 0), i, tenant)
  {
    hide Exec, Init, OutboxOk, OpensOk, PlannedOk, RowsFromThePast, LogOk, EventsOf, Committed, Unedited, Enriched,
         DeliveryOk, CountsOk;
    ReachableIsSound(acts);
    var s := Exec(Init(), acts).value;
    IncidentInHistory(s, i);
    NonEmptyLog(i, s.log[i]);
    UneditedTagsStay(i, s.log[i]);
  }

  lemma {:induction false} ActsOnCreated(e: Envelope)
    ensures ActsOn(e) ==> e.payload.Created?
  {
  }

  /** A step that ends no Patch and leaves the incidents alone leaves the tags as they were. */
  lemma {:induction false} SameTagsKept(l: Loop, m: Loop, i: Uuid, tenant: Uuid)
    requires OnlyEnriched(l, i, tenant) && l.read <= |l.sys.bus|
    requires m.sys.incidents == l.sys.incidents && m.sys.log == l.sys.log && l.sys.bus <= m.sys.bus && Done(m) == Done(l)
    ensures OnlyEnriched(m, i, tenant)
  {
    hide Enriched, ActsOn, Quiet, Done;
    DoneIsRead(l);
    assert forall x :: 0 <= x < Done(l) ==> m.sys.bus[x] == l.sys.bus[x];
    assert Enlisted(m, i, tenant) <==> Enlisted(l, i, tenant);
  }

  lemma {:induction false} DoneIsRead(l: Loop)
    ensures Done(l) <= l.read
  {
  }

  /** One more message done. */
  lemma {:induction false} OneMoreDone(l: Loop, m: Loop, i: Uuid, tenant: Uuid)
    requires Done(l) < |l.sys.bus| && Done(m) == Done(l) + 1 && m.sys.bus == l.sys.bus
    requires i in l.sys.incidents && i in m.sys.incidents && m.sys.incidents[i].tenant == l.sys.incidents[i].tenant
    ensures
      var e := l.sys.bus[Done(l)];
      Enlisted(m, i, tenant) <==>
      Enlisted(l, i, tenant) || (l.sys.incidents[i].tenant == tenant && e.entity == i && ActsOn(e))
  {
    hide ActsOn, Quiet, Done;
    if m.sys.incidents[i].tenant == tenant && l.sys.bus[Done(l)].entity == i && ActsOn(l.sys.bus[Done(l)]) {
      var x := Done(l);
      assert x < Done(m) && m.sys.bus[x].entity == i && ActsOn(m.sys.bus[x]);
    }
  }

  /** A message that starts no Patch: there was nothing to do, or its tags are there already. */
  lemma {:induction false} IdleTakeKeepsTags(l: Loop, i: Uuid, tenant: Uuid)
    requires LoopOk(l, tenant) && Quiet(l.sys) && l.read < |l.sys.bus| && !Starts(l, tenant) && OnlyEnriched(l, i, tenant)
    ensures OnlyEnriched(Loop(l.sys, l.read + 1), i, tenant)
  {
    hide Sound, Enriched, ActsOn, Quiet, Writes, InFlight, Enlisted;
    var e := l.sys.bus[l.read];
    var m := Loop(l.sys, l.read + 1);
    OneMoreDone(l, m, i, tenant);
    ActsOnCreated(e);
    if ActsOn(e) && e.entity == i && l.sys.incidents[i].tenant == tenant {
      HandleCallEffect(l.sys, e, tenant);
      CreatedMessage(l.sys, e);
    }
  }

  /** t is s with the tags of incident i written, and the first commits as they were. */
  ghost predicate TagsWritten(s: Sys, t: Sys, i: Uuid, tags: seq<string>) {
    && i in s.incidents && i in t.incidents
    && t.incidents == s.incidents[i := t.incidents[i]]
    && t.incidents[i].tags == Some(tags) && t.incidents[i].tenant == s.incidents[i].tenant
    && t.bus == s.bus
    && (forall j :: j in s.log && s.log[j] != [] ==> j in t.log && t.log[j] != [] && t.log[j][0] == s.log[j][0])
  }

  /** The commit of a tags-only Patch writes its tags into its incident, and touches no other. */
  lemma {:induction false} CommitWritesTags(s: Sys, i: Uuid, tags: seq<string>)
    requires TablesOk(s) && OpenFor(s, i, tags) && CanCommit(s, i)
    ensures TagsWritten(s, DoCommit(s, i), i, tags)
  {
    hide OutboxOk, PlannedOk, HistoryOk, RowsFromThePast, ProgressOk, AuditOk, StagedOk, UniqueExternal, FromRow, Normal,
         PatchPayloads, PlanOk, EnvelopesAt;
    assert i in s.open.Keys;
    assert OpenOk(i, s.open[i], s.incidents, s.outbox, s.visible, s.clock, s.nextId);
  }

  /** When the Patch for the next message is done, its incident has the enriched tags and counts as enlisted. */
  lemma {:induction false} PatchDoneKeepsTags(l: Loop, m: Loop, i: Uuid, tenant: Uuid)
    requires Sound(l.sys) && OnlyEnriched(l, i, tenant)
    requires Done(l) < |l.sys.bus| && Done(m) == Done(l) + 1
    requires
      var e := l.sys.bus[Done(l)];
      && ActsOn(e) && e.entity in l.sys.incidents && l.sys.incidents[e.entity].tenant == tenant
      && TagsWritten(l.sys, m.sys, e.entity, Wanted(e))
    ensures OnlyEnriched(m, i, tenant)
  {
    hide Sound, Enriched, Quiet, Enlisted, ActsOn, Done;
    var e := l.sys.bus[Done(l)];
    ActsOnCreated(e);
    CreatedMessage(l.sys, e);
    OneMoreDone(l, m, i, tenant);
  }

  /** The Patch under way ends. */
  lemma {:induction false} EndKeepsTags(l: Loop, t: Sys, i: Uuid, tenant: Uuid)
    requires Sound(l.sys) && 0 < l.read <= |l.sys.bus| && OnlyEnriched(l, i, tenant) && Quiet(t)
    requires InFlight(l.sys, l.sys.bus[l.read - 1], tenant)
    requires TagsWritten(l.sys, t, l.sys.bus[l.read - 1].entity, Wanted(l.sys.bus[l.read - 1]))
    ensures OnlyEnriched(Loop(t, l.read), i, tenant)
  {
    hide Sound, Quiet, OnlyEnriched, PlannedFor, OpenFor, ActsOn, TagsWritten, Wanted;
    FlightNotQuiet(l.sys, l.sys.bus[l.read - 1], tenant);
    PatchDoneKeepsTags(l, Loop(t, l.read), i, tenant);
  }

  /** Enriching keeps the old tags in order, adds at most one, and adds it once only. */
  lemma {:induction false} EnrichedTwice(ts: seq<string>)
    ensures ts <= Enriched(ts) && |Enriched(ts)| <= |ts| + 1
    ensures ENRICH_TAG in Enriched(ts) && Enriched(Enriched(ts)) == Enriched(ts)
    ensures "enriched-by-reference-connector" in ts ==> Enriched(ts) == ts
    ensures "enriched-by-reference-connector" !in ts ==> Enriched(ts) == ts + ["enriched-by-reference-connector"]
  {
    if ENRICH_TAG !in ts {
      assert (ts + [ENRICH_TAG])[|ts|] == ENRICH_TAG;
    }
  }

  lemma {:induction false} StepKeepsTags(l: Loop, st: Step, i: Uuid, tenant: Uuid)
    requires LoopOk(l, tenant) && StepEnabled(l, st, tenant) && OnlyEnriched(l, i, tenant)
    ensures OnlyEnriched(StepLoop(l, st, tenant), i, tenant)
  {
    hide Sound, Enabled, Apply, OnlyEnriched, Quiet, Enriched, InFlight, DoReadPrior, Writes, DoCommit, CanCommit, OpenFor,
         OfPatch, FaultlessRelay;
    var m := StepLoop(l, st, tenant);
    match st
    case RelayStep(a) =>
      RelayStepKeeps(l.sys, a);
      SameFlight(l.sys, m.sys, tenant);
      SameTagsKept(l, m, i, tenant);
    case PatchStep(a) =>
      if Quiet(l.sys) {
        QuietHasNoPatch(l.sys, a);
      } else {
        var e := l.sys.bus[l.read - 1];
        PatchStepWorks(l.sys, e, tenant, a);
        if a.Commit? {
          SoundTables(l.sys);
          CommitWritesTags(l.sys, e.entity, Wanted(e));
          CommitIsQuiet(l.sys, e.entity, Wanted(e));
          EndKeepsTags(l, m.sys, i, tenant);
        } else {
          FlightNotQuiet(m.sys, e, tenant);
          SameTagsKept(l, m, i, tenant);
        }
      }
    case TakeStep =>
      if Starts(l, tenant) {
        TakePlans(l.sys, l.sys.bus[l.read], tenant);
        FlightNotQuiet(m.sys, l.sys.bus[l.read], tenant);
        SameTagsKept(l, m, i, tenant);
      } else {
        IdleTakeKeepsTags(l, i, tenant);
      }
  }

  /** The first commit of an incident stays what it was. */
  lemma {:induction false} StepKeepsOriginal(l: Loop, st: Step, i: Uuid, tenant: Uuid)
    requires LoopOk(l, tenant) && StepEnabled(l, st, tenant) && i in l.sys.log && l.sys.log[i] != []
    ensures
      var m := StepLoop(l, st, tenant);
      i in m.sys.log && m.sys.log[i] != [] && m.sys.log[i][0] == l.sys.log[i][0]
  {
    hide Sound, Enabled, Apply, Quiet, InFlight, DoReadPrior, Writes, DoCommit, OpenFor, OfPatch, FaultlessRelay,
         UniqueExternal, StagedOk;
    match st
    case RelayStep(a) => RelayStepKeeps(l.sys, a);
    case PatchStep(a) =>
      if Quiet(l.sys) {
        QuietHasNoPatch(l.sys, a);
      } else {
        var e := l.sys.bus[l.read - 1];
        PatchStepWorks(l.sys, e, tenant, a);
        if a.Commit? {
          SoundTables(l.sys);
          CommitWritesTags(l.sys, e.entity, Wanted(e));
        }
      }
    case TakeStep =>
      if Starts(l, tenant) {
        TakePlans(l.sys, l.sys.bus[l.read], tenant);
      }
  }

  lemma {:induction false} RunKeepsTags(l: Loop, steps: seq<Step>, i: Uuid, tenant: Uuid)
    requires LoopOk(l, tenant) && OnlyEnriched(l, i, tenant) && LoopRun(l, steps, tenant).Some?
    ensures
      var m := LoopRun(l, steps, tenant).value;
      && LoopOk(m, tenant) && OnlyEnriched(m, i, tenant) && i in l.sys.log && l.sys.log[i] != []
      && Original(m.sys, i) == Original(l.sys, i)
  {
    hide LoopOk, StepEnabled, StepLoop, Enriched, Enlisted;
    if steps != [] {
      var n := |steps| - 1;
      RunKeepsTags(l, steps[..n], i, tenant);
      var m := LoopRun(l, steps[..n], tenant).value;
      StepKeepsTags(m, steps[n], i, tenant);
      StepKeepsOriginal(m, steps[n], i, tenant);
      StepKeepsLoop(m, steps[n], tenant);
    }
  }

  /** At rest the connector has taken the created message of `i`; it acted on it exactly when somebody else created `i`. */
  lemma {:induction false} EnlistedAtRest(l: Loop, i: Uuid, tenant: Uuid)
    requires Sound(l.sys) && Quiescent(l) && i in l.sys.incidents
    ensures i in l.sys.log && l.sys.log[i] != []
    ensures Enlisted(l, i, tenant) <==> l.sys.incidents[i].tenant == tenant && l.sys.log[i][0].audit.actor != REFERENCE
  {
    hide Sound, Drained, Idle, TablesOk, DeliveryOk, LogOk, Committed, EventsOf;
    SoundTables(l.sys);
    CreatedIsOnBus(l.sys, i);
    var first := l.sys.log[i][0].events[0];
    HistoryOf(l.sys, i);
    CreatedEventFacts(i, l.sys.log[i]);
    var x :| 0 <= x < |l.sys.bus| && l.sys.bus[x] == first;
    forall y | 0 <= y < |l.sys.bus| && l.sys.bus[y].entity == i && ActsOn(l.sys.bus[y])
      ensures l.sys.log[i][0].audit.actor != REFERENCE
    {
      CreatedMessage(l.sys, l.sys.bus[y]);
    }
  }

  /**
   * Every fault-free run of the loop that comes to rest leaves each incident of the connector's
   * tenant with its original tags in order and the enrich tag, added unless it was there
   * before. Incidents the connector created itself, and those of other tenants, keep their tags.
   */
  lemma {:induction false} TagsAtRest(l: Loop, steps: seq<Step>, i: Uuid, tenant: Uuid)
    requires Started(l) && OnlyEnriched(l, i, tenant) && LoopRun(l, steps, tenant).Some?
    requires Quiescent(LoopRun(l, steps, tenant).value)
    ensures
      var s := LoopRun(l, steps, tenant).value.sys;
      && i in s.incidents && i in s.log && s.log[i] != [] && i in l.sys.log && l.sys.log[i] != []
      && s.incidents[i].tags.GetOr([]) ==
         if s.incidents[i].tenant == tenant && s.log[i][0].audit.actor != REFERENCE
         then Enriched(Original(l.sys, i)) else Original(l.sys, i)
  {
    hide Sound, InFlight, Quiescent, LoopRun, Enriched, Enlisted, Started;
    StartedIsOk(l, tenant);
    RunKeepsTags(l, steps, i, tenant);
    EnlistedAtRest(LoopRun(l, steps, tenant).value, i, tenant);
  }

  /** So the enrich tag is present at rest exactly when the connector was to add it or it was there from the start. */
  lemma {:induction false} TagPresentAtRest(l: Loop, steps: seq<Step>, i: Uuid, tenant: Uuid)
    requires Started(l) && OnlyEnriched(l, i, tenant) && LoopRun(l, steps, tenant).Some?
    requires Quiescent(LoopRun(l, steps, tenant).value)
    ensures
      var s := LoopRun(l, steps, tenant).value.sys;
      && i in s.incidents && i in s.log && s.log[i] != [] && i in l.sys.log && l.sys.log[i] != []
      && (ENRICH_TAG in s.incidents[i].tags.GetOr([]) <==>
            ENRICH_TAG in Original(l.sys, i)
            || (s.incidents[i].tenant == tenant && s.log[i][0].audit.actor != REFERENCE))
  {
    hide Started, Quiescent, LoopRun, Enriched, OnlyEnriched;
    TagsAtRest(l, steps, i, tenant);
    EnrichedTwice(Original(l.sys, i));
  }

  /**
   * And every fair run does come to rest: whatever the interleaving, after as many fair rounds as the
   * starting state weighs, the tags are these.
   */
  lemma {:induction false} TagsAfterEveryFairRun(l: Loop, rounds: seq<seq<Step>>, i: Uuid, tenant: Uuid)
    requires Started(l) && Idle(l.sys) && |PendingBad(l.sys)| < BATCH && OnlyEnriched(l, i, tenant)
    requires FairRun(l, rounds, tenant) && |rounds| >= Weight(l)
    ensures LoopRun(l, Flatten(rounds), tenant).Some?
    ensures
      var s := LoopRun(l, Flatten(rounds), tenant).value.sys;
      && i in s.incidents && i in s.log && s.log[i] != [] && i in l.sys.log && l.sys.log[i] != []
      && s.incidents[i].tags.GetOr([]) ==
         if s.incidents[i].tenant == tenant && s.log[i][0].audit.actor != REFERENCE
         then Enriched(Original(l.sys, i)) else Original(l.sys, i)
  {
    hide Started, Quiescent, LoopRun, Enriched, OnlyEnriched, FairRun, Weight, PendingBad, Flatten;
    EveryFairRunRests(l, rounds, tenant);
    TagsAtRest(l, Flatten(rounds), i, tenant);
  }
}
