/**
 * The closed loop: the relay publishes, the connector patches what it hears about, and the
 * patches produce new rows for the relay. No outside requests and no faults. Relay steps and the
 * statements of the connector's Patch interleave freely.
 */
module Feedback {
  import opened Prelude
  import opened Lifecycle
  import opened Domain
  import opened Auth
  import opened Outbox
  import opened Machine
  import opened Tables
  import opened Delivery
  import opened Conservation
  import opened Guarantees
  import opened Serial
  import opened Publishing
  import opened Connector

  /** The system, and how many bus messages the connector has taken. */
  datatype Loop = Loop(sys: Sys, read: nat)

  /** The relay moves, the connector takes the next message, or its Patch runs one statement. */
  datatype Step = RelayStep(action: Action) | TakeStep | PatchStep(action: Action)

  /** What the relay does when nothing fails; time may pass. */
  predicate FaultlessRelay(a: Action) {
    a.Tick? || a.Fetch? || a.Skip? || a == Publish(true, 1) || a == Mark(true)
  }

  /** The statements of a Patch after its first read. */
  predicate OfPatch(a: Action) {
    a.Lock? || a.Record? || a.Enqueue? || a.Commit?
  }

  /** Taking a message starts a Patch exactly when the connector acts on it and there is something to write. */
  ghost predicate Starts(l: Loop, tenant: Uuid) {
    l.read < |l.sys.bus| && ActsOn(l.sys.bus[l.read]) && Writes(l.sys, HandleCall(l.sys.bus[l.read], tenant))
  }

  /** The steps of the machine that one step of the loop stands for. */
  ghost function StepActions(l: Loop, st: Step, tenant: Uuid): seq<Action> {
    match st
    case RelayStep(a) => [a]
    case PatchStep(a) => [a]
    case TakeStep => if Starts(l, tenant) then [ReadPrior(HandleCall(l.sys.bus[l.read], tenant))] else []
  }

  /** The connector takes its next message only after the previous PATCH was answered. */
  ghost predicate StepEnabled(l: Loop, st: Step, tenant: Uuid) {
    match st
    case RelayStep(a) => FaultlessRelay(a) && Enabled(l.sys, a)
    case PatchStep(a) => OfPatch(a) && Enabled(l.sys, a)
    case TakeStep => l.read < |l.sys.bus| && Quiet(l.sys)
  }

  ghost function StepLoop(l: Loop, st: Step, tenant: Uuid): Loop
    requires StepEnabled(l, st, tenant)
  {
    match st
    case RelayStep(a) => Loop(Apply(l.sys, a), l.read)
    case PatchStep(a) => Loop(Apply(l.sys, a), l.read)
    case TakeStep =>
      Loop(if Starts(l, tenant) then DoReadPrior(l.sys, HandleCall(l.sys.bus[l.read], tenant)) else l.sys, l.read + 1)
  }

  ghost function LoopRun(l: Loop, steps: seq<Step>, tenant: Uuid): Option<Loop> {
    if steps == [] then
      Some(l)
    else
      var n := |steps| - 1;
      match LoopRun(l, steps[..n], tenant)
      case None => None
      case Some(m) => if StepEnabled(m, steps[n], tenant) then Some(StepLoop(m, steps[n], tenant)) else None
  }

  // ---- the Patch under way ----

  /** The tags the connector asks for when it acts on e. */
  function Wanted(e: Envelope): seq<string> {
    if e.payload.Created? then Enriched(e.payload.snapshot.tags.GetOr([])) else []
  }

  /** A plan that writes these tags and nothing else. */
  ghost predicate TagPlan(plan: Plan, tags: seq<string>) {
    && plan.status.None? && plan.changed == [TagsField]
    && plan.upd == IncidentUpdate(None, None, None, None, None, None, Some(tags), None, plan.upd.updatedAt)
  }

  ghost predicate PlannedFor(s: Sys, i: Uuid, tags: seq<string>) {
    && s.open == map[] && s.planned != {}
    && forall tx :: tx in s.planned ==> s.planned == {tx} && tx.id == i && TagPlan(tx.plan, tags)
  }

  ghost predicate OpenFor(s: Sys, i: Uuid, tags: seq<string>) {
    && s.planned == {} && s.open.Keys == {i}
    && s.open[i].plan.Some? && TagPlan(s.open[i].plan.value, tags)
  }

  /** The Patch for message e is under way, before or after its UPDATE. */
  ghost predicate InFlight(s: Sys, e: Envelope, tenant: Uuid) {
    && ActsOn(e) && e.entity in s.incidents && s.incidents[e.entity].tenant == tenant
    && (PlannedFor(s, e.entity, Wanted(e))
        || OpenFor(s, e.entity, Wanted(e)))
  }

  ghost predicate LoopOk(l: Loop, tenant: Uuid) {
    && Sound(l.sys) && l.read <= |l.sys.bus|
    && (Quiet(l.sys) || (l.read > 0 && InFlight(l.sys, l.sys.bus[l.read - 1], tenant)))
  }

  lemma {:induction false} FlightNotQuiet(s: Sys, e: Envelope, tenant: Uuid)
    requires InFlight(s, e, tenant)
    ensures !Quiet(s)
  {
    hide ActsOn, TagPlan, Enriched;
    assert s.open == map[] ==> s.open.Keys == {};
  }

  // ---- one step ----

  lemma {:induction false} RelayStepKeeps(s: Sys, a: Action)
    requires FaultlessRelay(a) && Enabled(s, a)
    ensures
      var t := Apply(s, a);
      && t == s.(clock := t.clock, nextId := t.nextId, published := t.published, batch := t.batch, marking := t.marking,
                 bus := t.bus, calls := t.calls)
      && s.bus <= t.bus && s.published.Keys <= t.published.Keys
  {
    hide IsFetch, Unpublished;
  }

  lemma {:induction false} SoundTables(s: Sys)
    requires Sound(s)
    ensures TablesOk(s) && DeliveryOk(s)
  {
    hide TablesOk, DeliveryOk, CountsOk;
  }

  lemma {:induction false} SoundAfter(s: Sys, a: Action)
    requires Sound(s) && Enabled(s, a)
    ensures Sound(Apply(s, a))
  {
    hide TablesOk, DeliveryOk, CountsOk, Enabled, Apply;
    StepKeepsTables(s, a);
    StepKeepsDelivery(s, a);
    StepKeepsCounts(s, a);
  }

  /** The first read of the connector's Patch plans its tags and nothing else. */
  lemma {:induction false} TakePlans(s: Sys, e: Envelope, tenant: Uuid)
    requires Quiet(s) && ActsOn(e) && Writes(s, HandleCall(e, tenant))
    ensures Enabled(s, ReadPrior(HandleCall(e, tenant)))
    ensures Apply(s, ReadPrior(HandleCall(e, tenant))) == DoReadPrior(s, HandleCall(e, tenant))
    ensures
      var t := DoReadPrior(s, HandleCall(e, tenant));
      && InFlight(t, e, tenant)
      && t == s.(planned := t.planned, clock := t.clock, nextId := t.nextId)
  {
    hide Writes, PatchTxFor, Enriched;
    HandleCallEffect(s, e, tenant);
    HandleTx(s, e, tenant);
    assert s.planned + {PatchTxFor(s, HandleCall(e, tenant))} == {PatchTxFor(s, HandleCall(e, tenant))};
  }

  lemma {:induction false} HandleTx(s: Sys, e: Envelope, tenant: Uuid)
    requires e.payload.Created? && Writes(s, HandleCall(e, tenant))
    ensures
      var tx := PatchTxFor(s, HandleCall(e, tenant));
      tx.id == e.entity && TagPlan(tx.plan, Wanted(e))
  {
    hide Enriched, CanTransition;
    HandleCallEffect(s, e, tenant);
  }

  /** What one statement of the Patch under way does. */
  ghost predicate Works(s: Sys, t: Sys, e: Envelope, tenant: Uuid, a: Action) {
    && t.bus == s.bus && t.batch == s.batch && t.marking == s.marking && t.published == s.published
    && s.outbox <= t.outbox
    && (if a.Commit? then
          && a.id == e.entity && OpenFor(s, e.entity, Wanted(e))
          && CanCommit(s, e.entity) && t == DoCommit(s, e.entity)
        else
          && InFlight(t, e, tenant) && t.incidents == s.incidents && t.log == s.log && t.visible == s.visible
          && |t.outbox| <= |s.outbox| + 1)
  }

  lemma {:induction false} PatchStepWorks(s: Sys, e: Envelope, tenant: Uuid, a: Action)
    requires InFlight(s, e, tenant) && OfPatch(a) && Enabled(s, a)
    ensures Works(s, Apply(s, a), e, tenant, a)
  {
    hide ActsOn, TagPlan, Enriched, RowFor, AuditFor, UniqueExternal, StagedOk, ApplyUpdate, PatchPayloads, FromRow;
    match a
    case Lock(tx) => assert s.planned == {tx} && s.planned - {tx} == {};
    case Record(i) => assert i in s.open.Keys;
    case Enqueue(i) => assert i in s.open.Keys;
    case Commit(i) =>
      assert i in s.open.Keys;
      CommitStep(s, i);
  }

  lemma {:induction false} QuietHasNoPatch(s: Sys, a: Action)
    requires Quiet(s) && OfPatch(a)
    ensures !Enabled(s, a)
  {
  }

  lemma {:induction false} CommitIsQuiet(s: Sys, i: Uuid, tags: seq<string>)
    requires OpenFor(s, i, tags) && CanCommit(s, i)
    ensures Quiet(DoCommit(s, i))
  {
    hide TagPlan, UniqueExternal, StagedOk;
    assert s.open - {i} == map[];
  }

  lemma {:induction false} StepKeepsLoop(l: Loop, st: Step, tenant: Uuid)
    requires LoopOk(l, tenant) && StepEnabled(l, st, tenant)
    ensures LoopOk(StepLoop(l, st, tenant), tenant)
    ensures l.sys.bus <= StepLoop(l, st, tenant).sys.bus
  {
    hide Sound, Enabled, Apply, Writes, DoReadPrior, InFlight, Quiet, DoCommit, CanCommit, OfPatch, FaultlessRelay, OpenFor,
         Enriched;
    match st
    case RelayStep(a) =>
      SoundAfter(l.sys, a);
      RelayStepKeeps(l.sys, a);
      SameFlight(l.sys, Apply(l.sys, a), tenant);
    case PatchStep(a) =>
      SoundAfter(l.sys, a);
      if Quiet(l.sys) {
        QuietHasNoPatch(l.sys, a);
      } else {
        var e := l.sys.bus[l.read - 1];
        PatchStepWorks(l.sys, e, tenant, a);
        if a.Commit? {
          CommitIsQuiet(l.sys, e.entity, Wanted(e));
        }
      }
    case TakeStep =>
      if Starts(l, tenant) {
        TakePlans(l.sys, l.sys.bus[l.read], tenant);
        SoundAfter(l.sys, ReadPrior(HandleCall(l.sys.bus[l.read], tenant)));
      }
  }

  /** Being quiet or under way depends on the transactions and the incidents alone. */
  lemma {:induction false} SameFlight(s: Sys, t: Sys, tenant: Uuid)
    requires t.open == s.open && t.planned == s.planned && t.incidents == s.incidents
    ensures Quiet(t) <==> Quiet(s)
    ensures forall e :: InFlight(s, e, tenant) <==> InFlight(t, e, tenant)
  {
    hide ActsOn, TagPlan, Enriched;
  }

  /** Every run of the loop is a run of the machine, so all its guarantees hold here too. */
  lemma {:induction false} LoopIsRun(l: Loop, steps: seq<Step>, tenant: Uuid) returns (acts: seq<Action>)
    requires LoopRun(l, steps, tenant).Some?
    ensures Exec(l.sys, acts) == Some(LoopRun(l, steps, tenant).value.sys)
  {
    hide Exec, StepActions, StepEnabled, StepLoop;
    if steps == [] {
      acts := [];
      EmptyRun(l.sys);
    } else {
      var n := |steps| - 1;
      acts := LoopIsRun(l, steps[..n], tenant);
      var m := LoopRun(l, steps[..n], tenant).value;
      StepIsRun(m, steps[n], tenant);
      ExecConcat(l.sys, acts, StepActions(m, steps[n], tenant));
      acts := acts + StepActions(m, steps[n], tenant);
    }
  }

  lemma {:induction false} StepIsRun(l: Loop, st: Step, tenant: Uuid)
    requires StepEnabled(l, st, tenant)
    ensures Exec(l.sys, StepActions(l, st, tenant)) == Some(StepLoop(l, st, tenant).sys)
  {
    hide Enabled, Apply, Writes, DoReadPrior, Exec, InFlight, Enriched;
    EmptyRun(l.sys);
    match st
    case RelayStep(a) => RunOne(l.sys, a);
    case PatchStep(a) => RunOne(l.sys, a);
    case TakeStep =>
      if Starts(l, tenant) {
        TakePlans(l.sys, l.sys.bus[l.read], tenant);
        RunOne(l.sys, ReadPrior(HandleCall(l.sys.bus[l.read], tenant)));
      }
  }

  lemma {:induction false} RunOne(s: Sys, a: Action)
    requires Enabled(s, a)
    ensures Exec(s, [a]) == Some(Apply(s, a))
  {
    hide Enabled, Apply;
    ExecSnoc(s, [], a);
    assert [] + [a] == [a];
  }

  // ---- the weight ----

  /** A message about a creation may still cause one more row. */
  function MessageWeight(e: Envelope): nat {
    if e.payload.Created? then 3 else 1
  }

  function RowWeight(b: Body): nat {
    if b.WellFormed? then MessageWeight(b.env) + 1 else 0
  }

  function MessagesWeight(es: seq<Envelope>): nat {
    if es == [] then 0 else MessagesWeight(es[..|es| - 1]) + MessageWeight(es[|es| - 1])
  }

  function RowsWeight(rows: seq<OutboxRow>, waiting: set<nat>): nat {
    if rows == [] then 0
    else
      var n := |rows| - 1;
      RowsWeight(rows[..n], waiting) + if n in waiting then RowWeight(rows[n].body) else 0
  }

  /** Committed rows whose publish has not succeeded yet. */
  function Waiting(visible: set<nat>, published: map<nat, Time>, marking: Option<nat>): set<nat> {
    set k | k in visible && k !in published && marking != Some(k)
  }

  function QueueWeight(s: Sys): nat {
    RowsWeight(s.outbox, Waiting(s.visible, s.published, s.marking))
  }

  /** A Patch under way will write one row that causes nothing further. */
  function FlightWeight(s: Sys): nat {
    if Quiet(s) then 0 else 2
  }

  function Weight(l: Loop): nat
    requires l.read <= |l.sys.bus|
  {
    QueueWeight(l.sys) + FlightWeight(l.sys) + MessagesWeight(l.sys.bus[l.read..])
  }

  lemma {:induction false} MessagesGrow(es: seq<Envelope>, e: Envelope)
    ensures MessagesWeight(es + [e]) == MessagesWeight(es) + MessageWeight(e)
  {
    assert (es + [e])[..|es|] == es;
  }

  lemma {:induction false} MessagesShrink(es: seq<Envelope>)
    requires es != []
    ensures MessagesWeight(es) == MessageWeight(es[0]) + MessagesWeight(es[1..])
  {
    var n := |es| - 1;
    if n == 0 {
      assert es[..0] == [] && es[1..] == [];
    } else {
      MessagesShrink(es[..n]);
      assert es[..n][1..] == es[1..][..n - 1];
    }
  }

  lemma {:induction false} RowsWeightDepends(rows: seq<OutboxRow>, v: set<nat>, w: set<nat>)
    requires forall k :: 0 <= k < |rows| ==> (k in v <==> k in w)
    ensures RowsWeight(rows, v) == RowsWeight(rows, w)
  {
    if rows != [] {
      RowsWeightDepends(rows[..|rows| - 1], v, w);
    }
  }

  lemma {:induction false} RowLeaves(rows: seq<OutboxRow>, waiting: set<nat>, k: nat)
    requires k < |rows| && k in waiting
    ensures RowsWeight(rows, waiting) == RowsWeight(rows, waiting - {k}) + RowWeight(rows[k].body)
  {
    var n := |rows| - 1;
    if k < n {
      RowLeaves(rows[..n], waiting, k);
    } else {
      RowsWeightDepends(rows[..n], waiting, waiting - {k});
    }
  }

  /** A row that is not visible yet weighs nothing. */
  lemma {:induction false} RowHidden(rows: seq<OutboxRow>, waiting: set<nat>, r: OutboxRow)
    requires |rows| !in waiting
    ensures RowsWeight(rows + [r], waiting) == RowsWeight(rows, waiting)
  {
    assert (rows + [r])[..|rows|] == rows;
  }

  /** Publishes and messages taken are what the weight pays for. */
  predicate Costs(st: Step) {
    st.TakeStep? || (st.RelayStep? && st.action.Publish?)
  }

  /** A successful publish turns a row into a message, which weighs one less. */
  lemma {:induction false} PublishWeight(s: Sys, t: Sys, read: nat)
    requires s.marking.None? && s.batch != [] && s.batch[0] < |s.outbox| && s.outbox[s.batch[0]].body.WellFormed?
    requires s.batch[0] in Waiting(s.visible, s.published, s.marking) && read <= |s.bus| <= |t.bus|
    requires t == DoPublish(s, true, 1)
    ensures QueueWeight(t) + MessagesWeight(t.bus[read..]) == QueueWeight(s) + MessagesWeight(s.bus[read..]) - 1
  {
    hide RowsWeight, MessagesWeight;
    var b := s.batch[0];
    var e := s.outbox[b].body.env;
    assert Repeat(e, 0) == [] && Repeat(e, 1) == Repeat(e, 0) + [e] == [e];
    assert t.bus[read..] == s.bus[read..] + [e];
    MessagesGrow(s.bus[read..], e);
    var w := Waiting(s.visible, s.published, s.marking);
    assert Waiting(t.visible, t.published, t.marking) == w - {b};
    RowLeaves(s.outbox, w, b);
  }

  /** The row at the head of the batch is still waiting. */
  lemma {:induction false} HeadWaits(s: Sys)
    requires Sound(s) && s.batch != [] && s.marking.None?
    ensures s.batch[0] in Waiting(s.visible, s.published, s.marking) && s.batch[0] < |s.outbox|
  {
    hide TablesOk, CountsOk, MarkedOk, BusOk, OrderOk, PrefixOk;
    assert Unpublished(s.outbox, s.visible, s.published, s.batch[0]);
  }

  lemma {:induction false} RelayStepWeight(l: Loop, a: Action, tenant: Uuid)
    requires LoopOk(l, tenant) && FaultlessRelay(a) && Enabled(l.sys, a)
    ensures l.read <= |Apply(l.sys, a).bus|
    ensures Weight(Loop(Apply(l.sys, a), l.read)) + (if a.Publish? then 1 else 0) == Weight(l)
  {
    hide Sound, RowsWeight, MessagesWeight, IsFetch, InFlight;
    var s := l.sys;
    RelayStepKeeps(s, a);
    if a.Publish? {
      HeadWaits(s);
      PublishWeight(s, Apply(s, a), l.read);
    } else {
      var t := Apply(s, a);
      assert t.bus == s.bus && t.outbox == s.outbox;
      assert Waiting(t.visible, t.published, t.marking) == Waiting(s.visible, s.published, s.marking);
    }
  }

  /** A message taken is gone, and a Patch that starts weighs less than the message did. */
  lemma {:induction false} TakeWeight(l: Loop, tenant: Uuid)
    requires LoopOk(l, tenant) && StepEnabled(l, TakeStep, tenant)
    ensures StepLoop(l, TakeStep, tenant).read <= |StepLoop(l, TakeStep, tenant).sys.bus|
    ensures Weight(StepLoop(l, TakeStep, tenant)) < Weight(l)
  {
    hide Sound, RowsWeight, MessagesWeight, Writes, DoReadPrior, InFlight, Enriched;
    var s := l.sys;
    var m := StepLoop(l, TakeStep, tenant);
    MessagesShrink(s.bus[l.read..]);
    assert s.bus[l.read..][1..] == s.bus[l.read + 1..];
    if Starts(l, tenant) {
      TakePlans(s, s.bus[l.read], tenant);
      FlightNotQuiet(m.sys, s.bus[l.read], tenant);
    }
  }

  /** The one row a tags-only Patch has staged when it commits. */
  lemma {:induction false} StagedUpdate(s: Sys, i: Uuid, tags: seq<string>) returns (p: nat)
    requires Sound(s) && OpenFor(s, i, tags) && CanCommit(s, i)
    ensures p < |s.outbox| && s.open[i].staged == [p] && p !in s.visible
    ensures RowWeight(s.outbox[p].body) == 2 && s.outbox[p].body.WellFormed?
  {
    hide OutboxOk, PlannedOk, HistoryOk, RowsFromThePast, DeliveryOk, CountsOk, StagedOk, UniqueExternal, AuditOk, DraftOk,
         FromRow, ApplyUpdate, PlanOk;
    var o := s.open[i];
    assert i in s.open.Keys;
    assert OpenOk(i, o, s.incidents, s.outbox, s.visible, s.clock, s.nextId);
    assert |o.payloads| == 1;
    p := o.staged[0];
    assert WrittenBy(s.outbox[p].body.env, o, 0);
  }

  lemma {:induction false} HiddenIsUnmarked(s: Sys, p: nat)
    requires Sound(s) && p !in s.visible
    ensures p !in s.published && s.marking != Some(p)
  {
    hide TablesOk, CountsOk, BusOk, OrderOk, PrefixOk, EventIds;
  }

  /** The commit turns the Patch into a row of the same weight. */
  lemma {:induction false} CommitWeight(s: Sys, i: Uuid, tags: seq<string>)
    requires Sound(s) && OpenFor(s, i, tags) && CanCommit(s, i)
    ensures QueueWeight(DoCommit(s, i)) == QueueWeight(s) + 2
  {
    hide Sound, RowsWeight, TagPlan, UniqueExternal, StagedOk, EnvelopesAt, RowWeight;
    var p := StagedUpdate(s, i, tags);
    HiddenIsUnmarked(s, p);
    var t := DoCommit(s, i);
    var w := Waiting(s.visible, s.published, s.marking);
    assert Elements([p]) == {p};
    assert Waiting(t.visible, t.published, t.marking) == w + {p};
    assert w + {p} - {p} == w;
    RowLeaves(s.outbox, w + {p}, p);
  }

  lemma {:induction false} HiddenRowsWeightless(s: Sys, t: Sys)
    requires Sound(s) && s.outbox <= t.outbox && |t.outbox| <= |s.outbox| + 1
    requires t.visible == s.visible && t.published == s.published && t.marking == s.marking
    ensures QueueWeight(t) == QueueWeight(s)
  {
    hide Sound, RowsWeight;
    var w := Waiting(s.visible, s.published, s.marking);
    VisibleBelow(s);
    assert |s.outbox| !in w;
    if |t.outbox| == |s.outbox| {
      assert t.outbox == s.outbox;
    } else {
      assert t.outbox == s.outbox + [t.outbox[|s.outbox|]];
      RowHidden(s.outbox, w, t.outbox[|s.outbox|]);
    }
  }

  lemma {:induction false} VisibleBelow(s: Sys)
    requires Sound(s)
    ensures forall k :: k in s.visible ==> k < |s.outbox|
  {
    hide OpensOk, PlannedOk, HistoryOk, RowsFromThePast, CountsOk, DeliveryOk, DistinctRows, SameEntity;
  }

  lemma {:induction false} PatchStepWeight(l: Loop, a: Action, tenant: Uuid)
    requires LoopOk(l, tenant) && OfPatch(a) && Enabled(l.sys, a)
    ensures l.read <= |Apply(l.sys, a).bus|
    ensures Weight(Loop(Apply(l.sys, a), l.read)) == Weight(l)
  {
    hide Sound, RowsWeight, MessagesWeight, Enabled, Apply, InFlight, OpenFor, QueueWeight, DoCommit, CanCommit, OfPatch,
         Quiet, Enriched;
    var s := l.sys;
    if Quiet(s) {
      QuietHasNoPatch(s, a);
    } else {
      var e := s.bus[l.read - 1];
      var t := Apply(s, a);
      PatchStepWorks(s, e, tenant, a);
      FlightNotQuiet(s, e, tenant);
      if a.Commit? {
        CommitWeight(s, e.entity, Wanted(e));
        CommitIsQuiet(s, e.entity, Wanted(e));
      } else {
        FlightNotQuiet(t, e, tenant);
        HiddenRowsWeightless(s, t);
      }
    }
  }

  lemma {:induction false} StepWeight(l: Loop, st: Step, tenant: Uuid)
    requires LoopOk(l, tenant) && StepEnabled(l, st, tenant)
    ensures StepLoop(l, st, tenant).read <= |StepLoop(l, st, tenant).sys.bus|
    ensures Weight(StepLoop(l, st, tenant)) + (if Costs(st) then 1 else 0) <= Weight(l)
  {
    hide LoopOk, Enabled, Apply, Weight, Starts, OfPatch, FaultlessRelay;
    match st
    case RelayStep(a) => RelayStepWeight(l, a, tenant);
    case PatchStep(a) => PatchStepWeight(l, a, tenant);
    case TakeStep => TakeWeight(l, tenant);
  }

  function TotalCost(steps: seq<Step>): nat {
    if steps == [] then 0 else TotalCost(steps[..|steps| - 1]) + if Costs(steps[|steps| - 1]) then 1 else 0
  }

  /** Every step that costs something is paid for by the weight. */
  lemma {:induction false} WeightPays(l: Loop, steps: seq<Step>, tenant: Uuid)
    requires LoopOk(l, tenant) && LoopRun(l, steps, tenant).Some?
    ensures
      var m := LoopRun(l, steps, tenant).value;
      LoopOk(m, tenant) && Weight(m) + TotalCost(steps) <= Weight(l)
  {
    hide StepEnabled, StepLoop, Weight, Costs, Sound, Quiet, InFlight;
    if steps != [] {
      var n := |steps| - 1;
      WeightPays(l, steps[..n], tenant);
      var m := LoopRun(l, steps[..n], tenant).value;
      StepWeight(m, steps[n], tenant);
      StepKeepsLoop(m, steps[n], tenant);
    }
  }

  /** A loop that starts between requests, with any part of the bus already read. */
  ghost predicate Started(l: Loop) {
    Reachable(l.sys) && Quiet(l.sys) && l.read <= |l.sys.bus|
  }

  lemma {:induction false} StartedIsOk(l: Loop, tenant: Uuid)
    requires Started(l)
    ensures LoopOk(l, tenant)
  {
    hide Reachable, Sound, Quiet, InFlight;
    ReachableStates(l.sys);
  }

  /**
   * The loop cannot feed on itself: in every fault-free run, however the relay's steps and the statements
   * of the connector's Patches interleave, publishes plus messages taken plus the remaining
   * weight never exceed the weight at the start.
   */
  lemma {:induction false} LoopRunsOut(l: Loop, steps: seq<Step>, tenant: Uuid)
    requires Started(l) && LoopRun(l, steps, tenant).Some?
    ensures
      var m := LoopRun(l, steps, tenant).value;
      m.read <= |m.sys.bus| && Weight(m) + TotalCost(steps) <= Weight(l)
  {
    hide LoopRun, Weight, Reachable, Sound, Quiet, TotalCost, InFlight;
    StartedIsOk(l, tenant);
    WeightPays(l, steps, tenant);
  }
}
