/** The relay: ordered at-least-once publishing with its failure branches. */
module Relay {
  import opened Prelude
  import opened Domain
  import opened Outbox
  import opened Machine
  import opened Tables
  import opened Delivery
  import opened Conservation
  import opened Guarantees
  import opened Database
  import opened Publishing
  import opened Progress

  /** s has been drained into t: the hundred oldest unpublished rows, or all of them, were gone through in order. */
  ghost predicate DrainedInto(s: Sys, t: Sys, answer: seq<nat>, fates: seq<RowFate>, live: bool) {
    && IsFetch(answer, 100, s.outbox, s.visible, s.published)
    && |fates| == |answer| && (forall x :: 0 <= x < |answer| ==> answer[x] < |s.outbox|)
    && Exec(s, [Fetch(answer)] + RowActions(s.outbox, answer, fates, live)) == Some(t)
  }

  /** What one tick does: nothing when its fetch fails, else one drain. */
  ghost predicate Ticked(s: Sys, t: Sys, answer: seq<nat>, fails: bool, fates: seq<RowFate>, live: bool) {
    if fails then t == s else DrainedInto(s, t, answer, fates, live)
  }

  /** The fates of the n rows fetched at a tick. */
  ghost function RowFates(fate: (nat, nat) -> RowFate, tick: nat, n: nat): seq<RowFate> {
    seq(n, (k: nat) => fate(tick, k))
  }

  /** A faultless tick is a faultless drain. */
  lemma {:induction false} TickIsDrain(s: Sys, t: Sys, answer: seq<nat>, fates: seq<RowFate>)
    requires DrainedInto(s, t, answer, fates, true) && Idle(s) && forall x :: 0 <= x < |fates| ==> Faultless(fates[x])
    ensures Idle(t) && t.outbox == s.outbox
    ensures FaultlessDrain(s.outbox, Drain(answer, fates))
    ensures Exec(s, DrainActions(s.outbox, Drain(answer, fates))) == Some(t)
  {
    hide Exec, IsFetch, RowActions;
    DrainRun(s, Drain(answer, fates));
  }

  /** A run of the ticker: tick n leads from states[n] to states[n + 1], and a channel once there stays. */
  ghost predicate TickRun(states: seq<Sys>, answers: seq<seq<nat>>, live: seq<bool>, ticks: nat,
                          fetchFails: nat -> bool, fate: (nat, nat) -> RowFate) {
    && |states| == |live| == ticks + 1 && |answers| == ticks
    && (forall n: nat :: n < ticks ==> live[n] ==> live[n + 1])
    && forall n: nat :: n < ticks ==>
         Ticked(states[n], states[n + 1], answers[n], fetchFails(n), RowFates(fate, n, |answers[n]|), live[n])
  }

  /** No fetch, no publish and no mark fails. */
  ghost predicate NoFaults(ticks: nat, fetchFails: nat -> bool, fate: (nat, nat) -> RowFate) {
    forall n: nat :: n < ticks ==> !fetchFails(n) && forall k: nat :: Faultless(fate(n, k))
  }

  lemma {:induction false} FaultlessTick(states: seq<Sys>, answers: seq<seq<nat>>, live: seq<bool>, ticks: nat,
                                         fetchFails: nat -> bool, fate: (nat, nat) -> RowFate, m: nat)
    requires TickRun(states, answers, live, ticks, fetchFails, fate) && NoFaults(ticks, fetchFails, fate)
    requires m < ticks && live[m] && Idle(states[m])
    ensures live[m + 1] && Idle(states[m + 1]) && states[m + 1].outbox == states[m].outbox
    ensures
      var d := Drain(answers[m], RowFates(fate, m, |answers[m]|));
      && FaultlessDrain(states[m].outbox, d)
      && Exec(states[m], DrainActions(states[m].outbox, d)) == Some(states[m + 1])
  {
    hide DrainedInto, FaultlessDrain, DrainActions, Exec, Faultless;
    var fates := RowFates(fate, m, |answers[m]|);
    assert Ticked(states[m], states[m + 1], answers[m], fetchFails(m), fates, live[m]);
    assert forall x :: 0 <= x < |fates| ==> fates[x] == fate(m, x);
    TickIsDrain(states[m], states[m + 1], answers[m], fates);
  }

  /** From tick m on, enough faultless ticks leave no good row waiting. */
  lemma {:induction false} TicksEmptyQueue(states: seq<Sys>, answers: seq<seq<nat>>, live: seq<bool>, ticks: nat,
                                           fetchFails: nat -> bool, fate: (nat, nat) -> RowFate, m: nat)
    requires TickRun(states, answers, live, ticks, fetchFails, fate) && NoFaults(ticks, fetchFails, fate)
    requires m <= ticks && live[m] && Idle(states[m])
    requires |Ahead(states[m])| < 100
    requires (ticks - m) * (100 - |Ahead(states[m])|) >= |PendingGood(states[m])|
    ensures PendingGood(states[ticks]) == {}
    decreases ticks - m
  {
    hide Ticked, NoFaults, Ahead, PendingGood, FaultlessDrain, DrainActions, Exec;
    if m < ticks {
      var s, t := states[m], states[m + 1];
      FaultlessTick(states, answers, live, ticks, fetchFails, fate, m);
      DrainProgress(s, Drain(answers[m], RowFates(fate, m, |answers[m]|)));
      var n, room, less := ticks - m - 1, 100 - |Ahead(s)|, 100 - |Ahead(t)|;
      Room(n, room, less);
      assert (n + 1) * room == n * room + room;
      TicksEmptyQueue(states, answers, live, ticks, fetchFails, fate, m + 1);
    }
  }

  class Relay {
    const store: Store
    const publisher: Publisher

    constructor (store: Store, publisher: Publisher)
      requires publisher.store == store
      ensures this.store == store && this.publisher == publisher
    {
      this.store := store;
      this.publisher := publisher;
    }

    /** The fetch: scans the query's answer row by row; a limit out of range falls back to 100. */
    method FetchUnpublished(limit: int, fails: bool) returns (rows: Result<seq<nat>, Error>)
      ensures rows.Err? <==> fails
      ensures rows.Err? ==> rows.error == Error.Storage
      ensures rows.Ok? && 1 <= limit <= 1000 ==> IsFetch(rows.value, limit, store.outbox, store.visible, store.published)
      ensures rows.Ok? && !(1 <= limit <= 1000) ==> IsFetch(rows.value, 100, store.outbox, store.visible, store.published)
    {
      if fails {
        return Err(Error.Storage);
      }
      var answer := store.SelectUnpublished(FetchLimit(limit));
      var out: seq<nat> := [];
      for i := 0 to |answer|
        invariant out == answer[..i]
      {
        out := out + [answer[i]];
      }
      assert answer[..|answer|] == answer;
      return Ok(out);
    }

    static function FetchLimit(limit: int): nat {
      if limit <= 0 || limit > 1000 then 100 else limit
    }

    /** Sets published_at on one row. */
    method MarkPublished(id: nat, at: Time, fails: bool) returns (ok: bool)
      modifies store`published
      ensures ok == !fails
      ensures store.published == if ok then old(store.published)[id := at] else old(store.published)
    {
      if fails {
        return false;
      }
      store.published := store.published[id := at];
      return true;
    }

    /** Drops a malformed row at the head of the batch. */
    ghost method SkipHead()
      requires store.Valid() && store.shadow.marking.None? && store.shadow.batch != []
      requires store.shadow.batch[0] < |store.outbox| && store.outbox[store.shadow.batch[0]].body.Malformed?
      modifies store`shadow, store`trace
      ensures store.Valid() && store.shadow == old(store.shadow).(batch := old(store.shadow).batch[1..])
      ensures store.trace == old(store.trace) + [Skip]
    {
      hide Exec, Init, Apply, Enabled, Store.Traced;
      SkipStep(store.shadow);
      store.Take(Skip);
    }

    /** Publishes the row at the head of the batch. */
    method PublishHead(e: Envelope, f: PublishFate) returns (ok: bool)
      requires store.Valid() && publisher.store == store
      requires store.shadow.marking.None? && store.shadow.batch != []
      requires store.shadow.batch[0] < |store.outbox| && store.outbox[store.shadow.batch[0]].body == WellFormed(e)
      modifies store`bus, store`shadow, store`trace, publisher`connected
      ensures store.Valid() && ok == PublishOk(f, old(publisher.connected))
      ensures store.shadow == DoPublish(old(store.shadow), ok, PublishCopies(f, old(publisher.connected)))
      ensures store.shadow.batch == if ok then old(store.shadow.batch)[1..] else []
      ensures store.shadow.marking == if ok then Some(old(store.shadow.batch)[0]) else None
      ensures publisher.connected == (old(publisher.connected) || Retries(f, old(publisher.connected)))
      ensures store.trace == old(store.trace) + [Publish(ok, PublishCopies(f, old(publisher.connected)))]
    {
      hide Exec, Init, Apply, Enabled, Repeat, PublishOk, PublishCopies, Retries, Store.Traced;
      PublishCopiesBounded(f, publisher.connected);
      ghost var n := PublishCopies(f, publisher.connected);
      ok := publisher.Publish(e, f);
      PublishStep(store.shadow, ok, n);
      store.Take(Publish(ok, n));
    }

    /** Marks the row that was just published; a failed mark leaves it unpublished. */
    method MarkHead(id: nat, marked: bool)
      requires store.Valid() && store.shadow.marking == Some(id)
      modifies store`published, store`clock, store`shadow, store`trace
      ensures store.Valid() && store.shadow == DoMark(old(store.shadow), marked)
      ensures store.published == if marked then old(store.published)[id := old(store.clock)] else old(store.published)
      ensures store.shadow.batch == old(store.shadow.batch) && store.shadow.marking.None?
      ensures store.trace == old(store.trace) + [Mark(marked)]
    {
      hide Exec, Init, Apply, Enabled, Store.Traced;
      var now := store.Now();
      var ok := MarkPublished(id, now, !marked);
      MarkStep(store.shadow, marked);
      store.Take(Mark(marked));
    }

    /** After a successful publish the envelope is on the bus. */
    lemma Arrived(s: Sys, e: Envelope, n: nat)
      requires store.Valid() && n > 0
      requires s.batch != [] && s.batch[0] < |s.outbox| && s.outbox[s.batch[0]].body == WellFormed(e)
      requires store.shadow == DoPublish(s, true, n)
      ensures e in store.bus
    {
      hide Store.Traced;
      RepeatArrives(s.bus, e, n);
    }

    /** Handles the row at the head of the batch: skip it, or publish it and mark it. */
    method HandleRow(id: nat, f: RowFate) returns (goes: bool)
      requires store.Valid() && publisher.store == store
      requires store.shadow.marking.None? && store.shadow.batch != [] && store.shadow.batch[0] == id < |store.outbox|
      modifies store, publisher
      ensures store.Valid() && store.outbox == old(store.outbox) && store.shadow.marking.None?
      ensures goes == GoesOn(store.outbox[id], f, old(publisher.connected))
      ensures publisher.connected == ConnectedAfter(store.outbox[id], f, old(publisher.connected))
      ensures store.shadow.batch == if goes then old(store.shadow.batch)[1..] else []
      ensures store.trace == old(store.trace) + HeadActions(store.outbox[id], f, old(publisher.connected))
      ensures goes <==>
              || store.outbox[id].body.Malformed?
              || (old(publisher.connected) && f.publish.first == Delivered)
              || (f.publish.reconnects && f.publish.second == Delivered)
      ensures store.outbox[id].body.WellFormed? && goes ==> store.outbox[id].body.env in store.bus
      ensures store.published.Keys ==
              old(store.published).Keys + if store.outbox[id].body.WellFormed? && goes && f.marked then {id} else {}
      ensures old(publisher.connected) ==> publisher.connected
    {
      hide Repeat, PublishOk, PublishCopies, Retries, DoPublish, DoMark, Store.Valid;
      PublishExactly(f.publish, publisher.connected);
      var row := store.outbox[id];
      if row.body.Malformed? {
        SkipHead();
        return true;
      }
      ghost var s, n := store.shadow, PublishCopies(f.publish, publisher.connected);
      PublishCopiesBounded(f.publish, publisher.connected);
      ShadowTables();
      goes := PublishHead(row.body.env, f.publish);
      if goes {
        Arrived(s, row.body.env, n);
      }
      if goes {
        MarkHead(id, f.marked);
      }
    }

    /** Goes through the fetched rows, until a publish fails. */
    method HandleRows(rows: seq<nat>, fates: seq<RowFate>)
      requires store.Valid() && publisher.store == store && |fates| == |rows|
      requires store.shadow.batch == rows && store.shadow.marking.None?
      requires forall x :: 0 <= x < |rows| ==> rows[x] < |store.outbox|
      modifies store, publisher
      ensures store.Valid() && store.shadow.batch == [] && store.shadow.marking.None?
      ensures store.trace == old(store.trace) + RowActions(old(store.outbox), rows, fates, old(publisher.connected))
      ensures old(publisher.connected) ==> publisher.connected
    {
      hide HeadActions, GoesOn, ConnectedAfter, RowActions, Store.Valid;
      ghost var outbox := store.outbox;
      ghost var goal := store.trace + RowActions(outbox, rows, fates, publisher.connected);
      assert rows[0..] == rows && fates[0..] == fates;
      var i := 0;
      while i < |rows|
        invariant 0 <= i <= |rows|
        invariant store.Valid() && store.outbox == outbox && publisher.store == store
        invariant old(publisher.connected) ==> publisher.connected
        invariant store.shadow.batch == rows[i..] && store.shadow.marking.None?
        invariant store.trace + RowActions(outbox, rows[i..], fates[i..], publisher.connected) == goal
      {
        RowActionsUnfold(outbox, rows, fates, i, store.trace, publisher.connected);
        var goes := HandleRow(rows[i], fates[i]);
        if !goes {
          return;
        }
        i := i + 1;
      }
      RowActionsNone(outbox, rows[i..], fates[i..], publisher.connected);
      assert store.trace + [] == store.trace;
    }

    /**
     * One drain over the rows the fetch query answers; `fate` says what happens to each of them.
     * It takes exactly the machine steps `RowActions` spells out; publish and mark errors
     * are swallowed, only a failed fetch is reported.
     */
    method DrainOnce(fetchFails: bool, fate: nat -> RowFate) returns (failed: bool, ghost answer: seq<nat>)
      requires store.Valid() && publisher.store == store
      requires store.shadow.batch == [] && store.shadow.marking.None?
      modifies store, publisher
      ensures store.Valid() && store.shadow.batch == [] && store.shadow.marking.None?
      ensures failed == fetchFails
      ensures failed ==> store.trace == old(store.trace) && store.shadow == old(store.shadow)
      ensures failed ==> publisher.connected == old(publisher.connected)
      ensures !failed ==>
                var fates := seq(|answer|, fate);
                && DrainedInto(old(store.shadow), store.shadow, answer, fates, old(publisher.connected))
                && store.trace == old(store.trace) + [Fetch(answer)]
                                  + RowActions(old(store.outbox), answer, fates, old(publisher.connected))
      ensures old(publisher.connected) ==> publisher.connected
    {
      hide IsFetch, RowActions, Store.Valid;
      answer := [];
      var fetched := FetchUnpublished(BATCH, fetchFails);
      if fetched.Err? {
        failed := true;
        return;
      }
      failed := false;
      answer := fetched.value;
      FetchIsBounded(answer, store.outbox, store.visible, store.published);
      ghost var s, before, live := store.shadow, store.trace, publisher.connected;
      ghost var fates := seq(|answer|, fate);
      ShadowTables();
      StartBatch(answer);
      HandleRows(fetched.value, seq(|fetched.value|, fate));
      ghost var taken := RowActions(s.outbox, answer, fates, live);
      assert store.trace == before + ([Fetch(answer)] + taken);
      RunSince(s, before, [Fetch(answer)] + taken);
    }

    /** The machine state shows the tables as they are. */
    lemma ShadowTables()
      requires store.Valid()
      ensures store.shadow.outbox == store.outbox && store.shadow.visible == store.visible
      ensures store.shadow.published == store.published && Exec(Init(), store.trace) == Some(store.shadow)
    {
      hide Exec, Init;
    }

    /** The steps since an earlier state lead from that state to this one. */
    lemma RunSince(s: Sys, before: seq<Action>, taken: seq<Action>)
      requires store.Valid() && Exec(Init(), before) == Some(s) && store.trace == before + taken
      ensures Exec(s, taken) == Some(store.shadow)
    {
      hide Exec, Init;
      ExecConcat(Init(), before, taken);
    }

    /** The ticker loop itself: `live` is whether there was a channel when each tick began. */
    method RunTicks(ticks: nat, fetchFails: nat -> bool, fate: (nat, nat) -> RowFate)
      returns (ghost states: seq<Sys>, ghost answers: seq<seq<nat>>, ghost live: seq<bool>)
      requires store.Valid() && publisher.store == store
      requires store.shadow.batch == [] && store.shadow.marking.None?
      modifies store, publisher
      ensures store.Valid() && store.shadow.batch == [] && store.shadow.marking.None?
      ensures old(store.trace) <= store.trace && RelayOnly(store.trace[|old(store.trace)|..])
      ensures TickRun(states, answers, live, ticks, fetchFails, fate)
      ensures states[0] == old(store.shadow) && states[ticks] == store.shadow && live[0] == old(publisher.connected)
    {
      hide Store.Valid, RowActions, Ticked, RowFates, RelayOnly;
      ghost var before := store.trace;
      states, answers, live := [store.shadow], [], [publisher.connected];
      NoSteps(before);
      for n := 0 to ticks
        invariant store.Valid() && publisher.store == store
        invariant store.shadow.batch == [] && store.shadow.marking.None?
        invariant before <= store.trace && RelayOnly(store.trace[|before|..])
        invariant TickRun(states, answers, live, n, fetchFails, fate)
        invariant states[0] == old(store.shadow) && states[n] == store.shadow
        invariant live[0] == old(publisher.connected) && live[n] == publisher.connected
      {
        var answer := Tick(before, n, fetchFails, fate);
        states, answers, live := states + [store.shadow], answers + [answer], live + [publisher.connected];
      }
    }

    /** One tick. */
    method Tick(ghost before: seq<Action>, tick: nat, fetchFails: nat -> bool, fate: (nat, nat) -> RowFate)
      returns (ghost answer: seq<nat>)
      requires store.Valid() && publisher.store == store
      requires store.shadow.batch == [] && store.shadow.marking.None?
      requires before <= store.trace && RelayOnly(store.trace[|before|..])
      modifies store, publisher
      ensures store.Valid() && store.shadow.batch == [] && store.shadow.marking.None?
      ensures before <= store.trace && RelayOnly(store.trace[|before|..])
      ensures Ticked(old(store.shadow), store.shadow, answer, fetchFails(tick), RowFates(fate, tick, |answer|),
                     old(publisher.connected))
      ensures old(publisher.connected) ==> publisher.connected
    {
      hide Store.Valid, RowActions, DrainedInto, RelayOnly, RowFates, Ticked;
      ghost var s, so, connected := store.shadow, store.trace, publisher.connected;
      ShadowTables();
      var failed;
      failed, answer := DrainOnce(fetchFails(tick), (k: nat) => fate(tick, k));
      TickTaken(s, store.shadow, before, so, store.trace, answer, fetchFails(tick), fate, tick, connected);
    }

    /** A tick whose drain took these steps. */
    lemma TickTaken(s: Sys, t: Sys, before: seq<Action>, so: seq<Action>, trace: seq<Action>, answer: seq<nat>,
                    fails: bool, fate: (nat, nat) -> RowFate, tick: nat, connected: bool)
      requires before <= so && RelayOnly(so[|before|..])
      requires fails ==> t == s && trace == so
      requires !fails ==>
                 var fates := seq(|answer|, (k: nat) => fate(tick, k));
                 && DrainedInto(s, t, answer, fates, connected)
                 && trace == so + [Fetch(answer)] + RowActions(s.outbox, answer, fates, connected)
      ensures before <= trace && RelayOnly(trace[|before|..])
      ensures Ticked(s, t, answer, fails, RowFates(fate, tick, |answer|), connected)
    {
      hide RelayOnly, RowActions, Exec, IsFetch;
      if !fails {
        var fates := seq(|answer|, (k: nat) => fate(tick, k));
        assert fates == RowFates(fate, tick, |answer|);
        RowActionsAreRelay(s.outbox, answer, fates, connected);
        FetchIsRelay(answer, RowActions(s.outbox, answer, fates, connected));
        MoreRelay(before, so, [Fetch(answer)] + RowActions(s.outbox, answer, fates, connected));
        assert so + [Fetch(answer)] + RowActions(s.outbox, answer, fates, connected) ==
               so + ([Fetch(answer)] + RowActions(s.outbox, answer, fates, connected));
      }
    }

    /**
     * The ticker loop, for as many ticks as it runs: one drain a tick, whose error is logged and
     * forgotten. `states` are the states between the ticks, `answers` what each fetch returned, `live` whether
     * there was a channel. When no fetch fails and nothing else does, it empties the queue at the
     * rate of a hundred rows a tick, less the malformed rows ahead.
     */
    method Run(ticks: nat, fetchFails: nat -> bool, fate: (nat, nat) -> RowFate)
      returns (ghost states: seq<Sys>, ghost answers: seq<seq<nat>>, ghost live: seq<bool>)
      requires store.Valid() && publisher.store == store
      requires store.shadow.batch == [] && store.shadow.marking.None?
      modifies store, publisher
      ensures store.Valid() && store.shadow.batch == [] && store.shadow.marking.None?
      ensures old(store.trace) <= store.trace && RelayOnly(store.trace[|old(store.trace)|..])
      ensures TickRun(states, answers, live, ticks, fetchFails, fate)
      ensures states[0] == old(store.shadow) && states[ticks] == store.shadow && live[0] == old(publisher.connected)
      ensures
        var s := old(store.shadow);
        old(publisher.connected) && NoFaults(ticks, fetchFails, fate)
        && |Ahead(s)| < 100 && ticks * (100 - |Ahead(s)|) >= |PendingGood(s)| ==>
          PendingGood(store.shadow) == {}
    {
      hide Store.Valid, RelayOnly, TickRun, NoFaults, Ahead, PendingGood;
      states, answers, live := RunTicks(ticks, fetchFails, fate);
      TickRunLengths(states, answers, live, ticks, fetchFails, fate);
      if live[0] && NoFaults(ticks, fetchFails, fate) && |Ahead(states[0])| < 100
         && ticks * (100 - |Ahead(states[0])|) >= |PendingGood(states[0])|
      {
        TicksEmptyQueue(states, answers, live, ticks, fetchFails, fate, 0);
      }
    }

    lemma TickRunLengths(states: seq<Sys>, answers: seq<seq<nat>>, live: seq<bool>, ticks: nat,
                         fetchFails: nat -> bool, fate: (nat, nat) -> RowFate)
      requires TickRun(states, answers, live, ticks, fetchFails, fate)
      ensures |states| == |live| == ticks + 1 && |answers| == ticks
    {
      hide Ticked;
    }

    lemma NoSteps(trace: seq<Action>)
      ensures RelayOnly(trace[|trace|..])
    {
    }

    lemma FetchIsRelay(answer: seq<nat>, more: seq<Action>)
      requires RelayOnly(more)
      ensures RelayOnly([Fetch(answer)] + more)
    {
    }

    /** The relay holds the fetched rows. */
    ghost method StartBatch(rows: seq<nat>)
      requires store.Valid() && store.shadow.batch == [] && store.shadow.marking.None?
      requires IsFetch(rows, BATCH, store.outbox, store.visible, store.published)
      modifies store`shadow, store`trace
      ensures store.Valid() && store.shadow.batch == rows && store.shadow.marking.None?
      ensures store.trace == old(store.trace) + [Fetch(rows)]
    {
      hide Exec, Init, IsFetch, Store.Traced;
      store.Take(Fetch(rows));
    }
  }
}
