/**
 * Relay and connector come to rest: not in some run but in every fair one, where the relay keeps
 * draining and the connector keeps taking messages, interleaved in any way.
 */
module Quiescence {
  import opened Prelude
  import opened Lifecycle
  import opened Domain
  import opened Auth
  import opened Outbox
  import opened Machine
  import opened Tables
  import opened Delivery
  import opened Conservation
  import opened Guarantees
  import opened Serial
  import opened Publishing
  import opened Progress
  import opened Connector
  import opened Feedback

  /** Relay and connector are between two pieces of work. */
  ghost predicate Resting(l: Loop) {
    Idle(l.sys) && Quiet(l.sys)
  }

  /** Nothing left to publish, mark or handle. */
  ghost predicate Quiescent(l: Loop) {
    Resting(l) && Drained(l.sys) && l.read == |l.sys.bus|
  }

  lemma {:induction false} MessagesWeightless(es: seq<Envelope>)
    ensures MessagesWeight(es) == 0 <==> es == []
  {
  }

  lemma {:induction false} RowsWeightless(rows: seq<OutboxRow>, waiting: set<nat>)
    ensures RowsWeight(rows, waiting) == 0 <==>
            forall k :: 0 <= k < |rows| && k in waiting ==> rows[k].body.Malformed?
  {
    if rows != [] {
      RowsWeightless(rows[..|rows| - 1], waiting);
    }
  }

  /** A resting loop is quiescent exactly when it weighs nothing. */
  lemma {:induction false} QuiescentWeighsNothing(l: Loop)
    requires Resting(l) && l.read <= |l.sys.bus|
    ensures Quiescent(l) <==> Weight(l) == 0
  {
    hide RowsWeight, MessagesWeight;
    var w := Waiting(l.sys.visible, l.sys.published, l.sys.marking);
    RowsWeightless(l.sys.outbox, w);
    MessagesWeightless(l.sys.bus[l.read..]);
    if RowsWeight(l.sys.outbox, w) == 0 {
      forall k | k in l.sys.visible && k < |l.sys.outbox| && l.sys.outbox[k].body.WellFormed?
        ensures k in l.sys.published
      {
        assert k in l.sys.published || k in w;
      }
    }
  }

  // ---- malformed rows do not multiply ----

  ghost function PendingBad(s: Sys): set<nat> {
    set k | k in Pending(s) && s.outbox[k].body.Malformed?
  }

  lemma {:induction false} BadShrinks(s: Sys, t: Sys)
    requires s.outbox <= t.outbox && s.published.Keys <= t.published.Keys
    requires forall k :: k in t.visible && k !in s.visible ==> k < |t.outbox| && t.outbox[k].body.WellFormed?
    requires forall k :: k in s.visible ==> k < |s.outbox|
    ensures |PendingBad(t)| <= |PendingBad(s)|
  {
    forall k | k in PendingBad(t)
      ensures k in PendingBad(s)
    {
      assert k in s.visible && s.outbox[k] == t.outbox[k];
    }
    Subset(PendingBad(t), PendingBad(s));
  }

  lemma {:induction false} StepAddsNoBad(l: Loop, st: Step, tenant: Uuid)
    requires LoopOk(l, tenant) && StepEnabled(l, st, tenant)
    ensures |PendingBad(StepLoop(l, st, tenant).sys)| <= |PendingBad(l.sys)|
  {
    hide PendingBad, Sound, Enabled, Apply, Writes, DoReadPrior, InFlight, Quiet, CanCommit, OfPatch, FaultlessRelay,
         OpenFor, DoCommit;
    var s, t := l.sys, StepLoop(l, st, tenant).sys;
    VisibleBelow(s);
    match st
    case RelayStep(a) =>
      RelayStepKeeps(s, a);
      BadShrinks(s, t);
    case PatchStep(a) =>
      if Quiet(s) {
        QuietHasNoPatch(s, a);
      } else {
        var e := s.bus[l.read - 1];
        PatchStepWorks(s, e, tenant, a);
        if a.Commit? {
          CommitAddsNoBad(s, e.entity, Wanted(e));
        } else {
          BadShrinks(s, t);
        }
      }
    case TakeStep =>
      if Starts(l, tenant) {
        TakePlans(s, s.bus[l.read], tenant);
        BadShrinks(s, t);
      }
  }

  lemma {:induction false} CommitAddsNoBad(s: Sys, i: Uuid, tags: seq<string>)
    requires Sound(s) && OpenFor(s, i, tags) && CanCommit(s, i)
    ensures |PendingBad(DoCommit(s, i))| <= |PendingBad(s)|
  {
    hide PendingBad, Sound, TagPlan, UniqueExternal, StagedOk, EnvelopesAt, RowWeight;
    VisibleBelow(s);
    var p := StagedUpdate(s, i, tags);
    BadShrinks(s, DoCommit(s, i));
  }

  lemma {:induction false} RunAddsNoBad(l: Loop, steps: seq<Step>, tenant: Uuid)
    requires LoopOk(l, tenant) && LoopRun(l, steps, tenant).Some?
    ensures
      var m := LoopRun(l, steps, tenant).value;
      LoopOk(m, tenant) && |PendingBad(m.sys)| <= |PendingBad(l.sys)|
  {
    hide StepEnabled, StepLoop, LoopOk, PendingBad;
    if steps != [] {
      var n := |steps| - 1;
      RunAddsNoBad(l, steps[..n], tenant);
      var m := LoopRun(l, steps[..n], tenant).value;
      StepKeepsLoop(m, steps[n], tenant);
      StepAddsNoBad(m, steps[n], tenant);
    }
  }

  // ---- fair rounds ----

  predicate HasFetch(steps: seq<Step>) {
    exists x :: 0 <= x < |steps| && steps[x].RelayStep? && steps[x].action.Fetch?
  }

  predicate HasTake(steps: seq<Step>) {
    exists x :: 0 <= x < |steps| && steps[x].TakeStep?
  }

  /**
   * One round: from rest to rest, in any interleaving, the relay has drained at least once, and the
   * connector has taken at least one message unless there was none.
   */
  ghost predicate FairRound(l: Loop, round: seq<Step>, tenant: Uuid) {
    && Resting(l) && LoopRun(l, round, tenant).Some? && Resting(LoopRun(l, round, tenant).value)
    && HasFetch(round)
    && (HasTake(round) || l.read == |l.sys.bus|)
  }

  ghost predicate FairRun(l: Loop, rounds: seq<seq<Step>>, tenant: Uuid)
    decreases |rounds|
  {
    rounds == [] ||
    (FairRound(l, rounds[0], tenant) && FairRun(LoopRun(l, rounds[0], tenant).value, rounds[1..], tenant))
  }

  function Flatten(rounds: seq<seq<Step>>): seq<Step> {
    if rounds == [] then [] else rounds[0] + Flatten(rounds[1..])
  }

  lemma {:induction false} LoopConcat(l: Loop, a: seq<Step>, b: seq<Step>, tenant: Uuid)
    requires LoopRun(l, a, tenant).Some?
    ensures LoopRun(l, a + b, tenant) == LoopRun(LoopRun(l, a, tenant).value, b, tenant)
  {
    hide StepEnabled, StepLoop;
    if b == [] {
      assert a + b == a;
    } else {
      var n := |b| - 1;
      LoopConcat(l, a, b[..n], tenant);
      assert (a + b)[..|a + b| - 1] == a + b[..n];
    }
  }

  /** A fetch with good rows waiting and fewer than 100 bad ones brings a good row. */
  lemma {:induction false} FetchBringsGood(s: Sys, rows: seq<nat>) returns (x: nat)
    requires IsFetch(rows, BATCH, s.outbox, s.visible, s.published)
    requires PendingGood(s) != {} && |PendingBad(s)| < BATCH
    ensures x < |rows| && rows[x] in PendingGood(s)
  {
    var g :| g in PendingGood(s);
    if g in rows {
      x :| x < |rows| && rows[x] == g;
    } else {
      assert Unpublished(s.outbox, s.visible, s.published, g);
      FetchDistinct(s, rows);
      DistinctCount(rows);
      if Elements(rows) <= PendingBad(s) {
        Subset(Elements(rows), PendingBad(s));
        assert false;
      }
      var k :| k in Elements(rows) && k !in PendingBad(s);
      x :| x < |rows| && rows[x] == k;
      assert Unpublished(s.outbox, s.visible, s.published, k);
    }
  }

  /** The relay holds a well-formed row. */
  ghost predicate HoldsGood(s: Sys) {
    exists x :: 0 <= x < |s.batch| && s.batch[x] < |s.outbox| && s.outbox[s.batch[x]].body.WellFormed?
  }

  /** What steps that cost nothing leave of a resting loop with good rows waiting. */
  ghost predicate Stuck(l: Loop, m: Loop, fetched: bool) {
    && m.read == l.read && Quiet(m.sys) && m.sys.marking.None?
    && m.sys.outbox == l.sys.outbox && m.sys.visible == l.sys.visible && m.sys.published == l.sys.published
    && m.sys.bus == l.sys.bus
    && (if fetched then HoldsGood(m.sys) else m.sys.batch == [])
  }

  /** Without a publish and without a message taken, a fetched good row stays in the batch. */
  lemma {:induction false} StuckStep(l: Loop, m: Loop, fetched: bool, st: Step, tenant: Uuid)
    requires Stuck(l, m, fetched) && StepEnabled(m, st, tenant) && !Costs(st)
    requires PendingGood(l.sys) != {} && |PendingBad(l.sys)| < BATCH
    ensures Stuck(l, StepLoop(m, st, tenant), fetched || (st.RelayStep? && st.action.Fetch?))
  {
    hide PendingGood, PendingBad, IsFetch, Writes, DoCommit, DoEnqueue, DoRecord, DoLock, OfPatch, Starts, HoldsGood;
    match st
    case RelayStep(a) =>
      match a {
        case Fetch(rows) =>
          SamePools(l.sys, m.sys);
          var x := FetchBringsGood(m.sys, rows);
          GoodIsWellFormed(m.sys, rows[x]);
          if fetched {
            NothingHeld(m.sys);
          }
          assert HoldsGood(m.sys.(batch := rows)) by {
            BatchHoldsGood(m.sys, rows, x);
          }
        case Skip => SkipKeepsGood(m.sys);
        case Tick(dt, di) => SameHeld(m.sys, m.sys.(clock := m.sys.clock + dt, nextId := m.sys.nextId + di));
        case _ =>
      }
    case PatchStep(a) => QuietHasNoPatch(m.sys, a);
    case TakeStep =>
  }

  lemma {:induction false} SamePools(s: Sys, t: Sys)
    requires t.outbox == s.outbox && t.visible == s.visible && t.published == s.published
    ensures PendingGood(t) == PendingGood(s) && PendingBad(t) == PendingBad(s)
  {
  }

  lemma {:induction false} GoodIsWellFormed(s: Sys, k: nat)
    requires k in PendingGood(s)
    ensures k < |s.outbox| && s.outbox[k].body.WellFormed?
  {
  }

  lemma {:induction false} NothingHeld(s: Sys)
    requires s.batch == []
    ensures !HoldsGood(s)
  {
  }

  lemma {:induction false} SameHeld(s: Sys, t: Sys)
    ensures t.batch == s.batch && t.outbox == s.outbox && HoldsGood(s) ==> HoldsGood(t)
  {
  }

  lemma {:induction false} BatchHoldsGood(s: Sys, rows: seq<nat>, x: nat)
    requires x < |rows| && rows[x] < |s.outbox| && s.outbox[rows[x]].body.WellFormed?
    ensures HoldsGood(s.(batch := rows))
  {
    var t := s.(batch := rows);
    assert t.batch[x] == rows[x];
  }

  lemma {:induction false} SkipKeepsGood(s: Sys)
    requires s.batch != [] && s.batch[0] < |s.outbox| && s.outbox[s.batch[0]].body.Malformed?
    ensures HoldsGood(s) ==> HoldsGood(s.(batch := s.batch[1..]))
  {
    if HoldsGood(s) {
      var x :| 0 <= x < |s.batch| && s.batch[x] < |s.outbox| && s.outbox[s.batch[x]].body.WellFormed?;
      BatchHoldsGood(s, s.batch[1..], x - 1);
    }
  }

  lemma {:induction false} StuckRun(l: Loop, steps: seq<Step>, tenant: Uuid)
    requires Resting(l) && LoopRun(l, steps, tenant).Some? && TotalCost(steps) == 0
    requires PendingGood(l.sys) != {} && |PendingBad(l.sys)| < BATCH
    ensures Stuck(l, LoopRun(l, steps, tenant).value, HasFetch(steps))
  {
    hide StepEnabled, StepLoop, PendingGood, PendingBad, HoldsGood, Costs;
    if steps != [] {
      var n := |steps| - 1;
      StuckRun(l, steps[..n], tenant);
      StuckStep(l, LoopRun(l, steps[..n], tenant).value, HasFetch(steps[..n]), steps[n], tenant);
      assert HasFetch(steps) <==> HasFetch(steps[..n]) || (steps[n].RelayStep? && steps[n].action.Fetch?);
    }
  }

  lemma {:induction false} FreeRunTakesNothing(steps: seq<Step>)
    requires TotalCost(steps) == 0
    ensures !HasTake(steps)
  {
    if steps != [] {
      FreeRunTakesNothing(steps[..|steps| - 1]);
    }
  }

  /** With work to do, a fair round does some: it publishes a row or takes a message. */
  lemma {:induction false} RoundWorks(l: Loop, round: seq<Step>, tenant: Uuid)
    requires LoopOk(l, tenant) && FairRound(l, round, tenant) && !Quiescent(l) && |PendingBad(l.sys)| < BATCH
    ensures TotalCost(round) > 0
  {
    hide Sound, InFlight, LoopRun, PendingBad, HoldsGood, HasFetch, HasTake, Quiet;
    if TotalCost(round) == 0 {
      FreeRunTakesNothing(round);
      if PendingGood(l.sys) == {} {
        NothingPending(l.sys);
      } else {
        StuckRun(l, round, tenant);
        NothingHeld(LoopRun(l, round, tenant).value.sys);
      }
    }
  }

  lemma {:induction false} NothingPending(s: Sys)
    requires PendingGood(s) == {}
    ensures Drained(s)
  {
    forall k | k in s.visible && k < |s.outbox| && s.outbox[k].body.WellFormed?
      ensures k in s.published
    {
      assert k in PendingGood(s) || k in s.published;
    }
  }

  lemma {:induction false} RoundsRest(l: Loop, rounds: seq<seq<Step>>, tenant: Uuid)
    requires LoopOk(l, tenant) && Resting(l) && |PendingBad(l.sys)| < BATCH
    requires FairRun(l, rounds, tenant) && |rounds| >= Weight(l)
    ensures LoopRun(l, Flatten(rounds), tenant).Some? && Quiescent(LoopRun(l, Flatten(rounds), tenant).value)
    decreases |rounds|
  {
    hide LoopOk, PendingBad, Weight, LoopRun, Resting, Quiescent, FairRound;
    LoopBounds(l, tenant);
    QuiescentWeighsNothing(l);
    if rounds == [] {
      NoSteps(l, tenant);
    } else {
      RoundFacts(l, rounds[0], tenant);
      if !Quiescent(l) {
        RoundWorks(l, rounds[0], tenant);
      }
      WeightPays(l, rounds[0], tenant);
      RunAddsNoBad(l, rounds[0], tenant);
      var m := LoopRun(l, rounds[0], tenant).value;
      RoundsRest(m, rounds[1..], tenant);
      LoopConcat(l, rounds[0], Flatten(rounds[1..]), tenant);
    }
  }

  lemma {:induction false} LoopBounds(l: Loop, tenant: Uuid)
    requires LoopOk(l, tenant)
    ensures l.read <= |l.sys.bus|
  {
    hide Sound, InFlight;
  }

  lemma {:induction false} RoundFacts(l: Loop, round: seq<Step>, tenant: Uuid)
    requires FairRound(l, round, tenant)
    ensures LoopRun(l, round, tenant).Some? && Resting(LoopRun(l, round, tenant).value)
  {
    hide LoopRun, Resting;
  }

  lemma {:induction false} NoSteps(l: Loop, tenant: Uuid)
    ensures LoopRun(l, [], tenant) == Some(l)
  {
  }

  /**
   * Every fair fault-free run comes to rest: from any reachable state between requests with fewer
   * than 100 malformed rows waiting, after as many fair rounds as the state weighs, everything is
   * published, marked and handled, and it stays so.
   */
  lemma {:induction false} EveryFairRunRests(l: Loop, rounds: seq<seq<Step>>, tenant: Uuid)
    requires Started(l) && Idle(l.sys) && |PendingBad(l.sys)| < BATCH
    requires FairRun(l, rounds, tenant) && |rounds| >= Weight(l)
    ensures LoopRun(l, Flatten(rounds), tenant).Some? && Quiescent(LoopRun(l, Flatten(rounds), tenant).value)
  {
    hide LoopRun, Quiescent, LoopOk, PendingBad, Weight, FairRun, Reachable, Quiet;
    StartedIsOk(l, tenant);
    RoundsRest(l, rounds, tenant);
  }

  /** A drain from rest with a good row waiting publishes, whatever interleaves with it. */
  lemma {:induction false} DrainPublishes(l: Loop, steps: seq<Step>, tenant: Uuid)
    requires Started(l) && Idle(l.sys) && |PendingBad(l.sys)| < BATCH && PendingGood(l.sys) != {}
    requires LoopRun(l, steps, tenant).Some? && HasFetch(steps) && Resting(LoopRun(l, steps, tenant).value)
    ensures
      var m := LoopRun(l, steps, tenant).value;
      m.read <= |m.sys.bus| && Weight(m) < Weight(l)
  {
    hide LoopRun, LoopOk, PendingBad, PendingGood, Weight, Reachable, Quiet, HasFetch, HoldsGood;
    StartedIsOk(l, tenant);
    if TotalCost(steps) == 0 {
      StuckRun(l, steps, tenant);
      NothingHeld(LoopRun(l, steps, tenant).value.sys);
    }
    LoopRunsOut(l, steps, tenant);
  }

  // ---- fair rounds exist ----

  function AsSteps(acts: seq<Action>): seq<Step> {
    seq(|acts|, x requires 0 <= x < |acts| => if OfPatch(acts[x]) then PatchStep(acts[x]) else RelayStep(acts[x]))
  }

  lemma {:induction false} LiftRun(l: Loop, acts: seq<Action>, tenant: Uuid)
    requires Exec(l.sys, acts).Some? && forall x :: 0 <= x < |acts| ==> FaultlessRelay(acts[x]) || OfPatch(acts[x])
    ensures LoopRun(l, AsSteps(acts), tenant) == Some(Loop(Exec(l.sys, acts).value, l.read))
  {
    hide Enabled, Apply;
    if acts != [] {
      var n := |acts| - 1;
      LiftRun(l, acts[..n], tenant);
      assert AsSteps(acts)[..n] == AsSteps(acts[..n]);
    }
  }

  lemma {:induction false} FaultlessRows(outbox: seq<OutboxRow>, rows: seq<nat>, fates: seq<RowFate>)
    requires FaultlessDrain(outbox, Drain(rows, fates))
    ensures forall x :: 0 <= x < |RowActions(outbox, rows, fates, true)| ==>
              FaultlessRelay(RowActions(outbox, rows, fates, true)[x])
    decreases |rows|
  {
    if rows != [] {
      FaultlessRows(outbox, rows[1..], fates[1..]);
      assert Faultless(fates[0]);
    }
  }

  /** One whole drain. */
  lemma {:induction false} DrainRound(l: Loop, tenant: Uuid) returns (steps: seq<Step>)
    requires Resting(l)
    ensures HasFetch(steps) && LoopRun(l, steps, tenant).Some? && Resting(LoopRun(l, steps, tenant).value)
  {
    hide Exec, LoopRun, IsFetch, RowActions, FaultlessRelay;
    var rows := FetchExists(l.sys);
    FetchInRange(l.sys, rows);
    var d := Drain(rows, seq(|rows|, _ => RowFate(PublishFate(Delivered, false, Delivered), true)));
    DrainRun(l.sys, d);
    var acts := DrainActions(l.sys.outbox, d);
    FaultlessRows(l.sys.outbox, rows, d.fates);
    FetchIsFaultless(rows);
    LiftRun(l, acts, tenant);
    steps := AsSteps(acts);
    assert acts[0] == Fetch(rows);
    assert steps[0] == RelayStep(Fetch(rows));
  }

  lemma {:induction false} FetchIsFaultless(rows: seq<nat>)
    ensures FaultlessRelay(Fetch(rows)) && !OfPatch(Fetch(rows))
  {
  }

  lemma {:induction false} SingleStep(l: Loop, st: Step, tenant: Uuid)
    requires StepEnabled(l, st, tenant)
    ensures LoopRun(l, [st], tenant) == Some(StepLoop(l, st, tenant))
  {
    hide StepEnabled, StepLoop;
    assert [st][..0] == [];
    assert LoopRun(l, [], tenant) == Some(l);
  }

  /** The next message, handled to the end. */
  lemma {:induction false} HandleRound(l: Loop, tenant: Uuid) returns (steps: seq<Step>)
    requires LoopOk(l, tenant) && Resting(l) && l.read < |l.sys.bus|
    ensures HasTake(steps) && LoopRun(l, steps, tenant).Some? && Resting(LoopRun(l, steps, tenant).value)
  {
    hide Sound, Exec, LoopRun, Quiet, Writes, DoReadPrior, PatchActions, InFlight, StepLoop;
    SingleStep(l, TakeStep, tenant);
    var m := StepLoop(l, TakeStep, tenant);
    TakeLoop(l, tenant);
    if Starts(l, tenant) {
      SoundTables(l.sys);
      var c := HandleCall(l.sys.bus[l.read], tenant);
      var acts := RestOfPatch(l.sys, c);
      LiftRun(m, acts, tenant);
      LoopConcat(l, [TakeStep], AsSteps(acts), tenant);
      steps := [TakeStep] + AsSteps(acts);
    } else {
      steps := [TakeStep];
    }
    assert steps[0] == TakeStep;
  }

  lemma {:induction false} TakeLoop(l: Loop, tenant: Uuid)
    requires StepEnabled(l, TakeStep, tenant)
    ensures
      var m := StepLoop(l, TakeStep, tenant);
      m.sys == if Starts(l, tenant) then DoReadPrior(l.sys, HandleCall(l.sys.bus[l.read], tenant)) else l.sys
  {
    hide Writes, DoReadPrior;
  }

  /** The statements of a Patch after its first read, when nothing interrupts. */
  lemma {:induction false} RestOfPatch(s: Sys, c: PatchCall) returns (acts: seq<Action>)
    requires TablesOk(s) && Quiet(s) && Writes(s, c)
    ensures forall x :: 0 <= x < |acts| ==> OfPatch(acts[x])
    ensures Exec(DoReadPrior(s, c), acts).Some?
    ensures
      var t := Exec(DoReadPrior(s, c), acts).value;
      Quiet(t) && t.batch == s.batch && t.marking == s.marking
  {
    hide TablesOk, Exec, PatchPlan, PatchTxFor, EventCount, DoReadPrior, Carries, ApplyUpdate, FromRow, PatchPayloads, Quiet;
    PatchAlone(s, c);
    var all := PatchActions(s, c);
    acts := all[1..];
    EnqueuesOnly(c.id, EventCount(PatchPlan(s, c).value));
    assert all == [ReadPrior(c)] + acts && all[..1] == [ReadPrior(c)];
    ExecPrefix(s, all, 1);
    FirstRead(s, c);
    ExecConcat(s, [ReadPrior(c)], acts);
  }

  lemma {:induction false} EnqueuesOnly(i: Uuid, n: nat)
    ensures forall x :: 0 <= x < |Enqueues(i, n)| ==> Enqueues(i, n)[x] == Enqueue(i)
  {
    if n > 0 {
      EnqueuesOnly(i, n - 1);
    }
  }

  lemma {:induction false} FirstRead(s: Sys, c: PatchCall)
    requires Writes(s, c)
    ensures Exec(s, [ReadPrior(c)]) == Some(DoReadPrior(s, c))
  {
    hide Writes, DoReadPrior;
    assert Exec(s, []) == Some(s);
    assert [ReadPrior(c)][..0] == [];
  }

  /** From rest some fair round can always be run. */
  lemma {:induction false} FairRoundExists(l: Loop, tenant: Uuid) returns (round: seq<Step>)
    requires LoopOk(l, tenant) && Resting(l)
    ensures FairRound(l, round, tenant)
  {
    hide LoopRun, LoopOk, Resting;
    LoopBounds(l, tenant);
    if l.read == |l.sys.bus| {
      round := DrainRound(l, tenant);
    } else {
      var first := HandleRound(l, tenant);
      var m := LoopRun(l, first, tenant).value;
      var more := DrainRound(m, tenant);
      LoopConcat(l, first, more, tenant);
      round := first + more;
      Both(first, more);
    }
  }

  lemma {:induction false} Both(first: seq<Step>, more: seq<Step>)
    requires HasTake(first) && HasFetch(more)
    ensures HasTake(first + more) && HasFetch(first + more)
  {
    var x :| 0 <= x < |first| && first[x].TakeStep?;
    assert (first + more)[x] == first[x];
    var y :| 0 <= y < |more| && more[y].RelayStep? && more[y].action.Fetch?;
    assert (first + more)[|first| + y] == more[y];
  }

  lemma {:induction false} FairRunExists(l: Loop, n: nat, tenant: Uuid) returns (rounds: seq<seq<Step>>)
    requires LoopOk(l, tenant) && Resting(l)
    ensures |rounds| == n && FairRun(l, rounds, tenant)
    decreases n
  {
    hide LoopRun, LoopOk, Resting, FairRound;
    if n == 0 {
      rounds := [];
    } else {
      var round := FairRoundExists(l, tenant);
      RoundFacts(l, round, tenant);
      var m := LoopRun(l, round, tenant).value;
      RunAddsNoBad(l, round, tenant);
      var rest := FairRunExists(m, n - 1, tenant);
      rounds := [round] + rest;
      assert rounds[1..] == rest;
    }
  }

  /** Fair runs are never stuck, so such a run to rest exists from every such state. */
  lemma {:induction false} LoopComesToRest(l: Loop, tenant: Uuid) returns (rounds: seq<seq<Step>>)
    requires Started(l) && Idle(l.sys) && |PendingBad(l.sys)| < BATCH
    ensures FairRun(l, rounds, tenant) && LoopRun(l, Flatten(rounds), tenant).Some?
    ensures Quiescent(LoopRun(l, Flatten(rounds), tenant).value)
  {
    hide LoopRun, Quiescent, LoopOk, PendingBad, Weight, FairRun, Reachable, Quiet;
    StartedIsOk(l, tenant);
    rounds := FairRunExists(l, Weight(l), tenant);
    EveryFairRunRests(l, rounds, tenant);
  }
}
