/**
 * How fast the relay empties the outbox. Malformed rows are skipped but never marked, so
 * they stay at the front of every later fetch and eat into the batch of 100.
 */
module Progress {
  import opened Prelude
  import opened Lifecycle
  import opened Auth
  import opened Domain
  import opened Outbox
  import opened Machine
  import opened Tables
  import opened Delivery
  import opened Conservation
  import opened Guarantees
  import opened Serial
  import opened Stamps
  import opened Publishing

  // ---- the fetch query always has an answer ----

  /** The `limit` oldest members of `pool`, oldest first. */
  ghost predicate Oldest(rows: seq<nat>, limit: nat, outbox: seq<OutboxRow>, pool: set<nat>)
    requires forall k :: k in pool ==> k < |outbox|
  {
    && |rows| <= limit
    && (forall x :: 0 <= x < |rows| ==> rows[x] in pool)
    && (forall x, y :: 0 <= x < y < |rows| ==>
          rows[x] != rows[y] && outbox[rows[x]].createdAt <= outbox[rows[y]].createdAt)
    && (forall k :: k in pool && k !in rows ==>
          |rows| == limit && forall x :: 0 <= x < |rows| ==> outbox[rows[x]].createdAt <= outbox[k].createdAt)
  }

  lemma {:induction false} OldestMember(outbox: seq<OutboxRow>, pool: set<nat>) returns (m: nat)
    requires pool != {} && forall k :: k in pool ==> k < |outbox|
    ensures m in pool && forall k :: k in pool ==> outbox[m].createdAt <= outbox[k].createdAt
    decreases |pool|
  {
    var first: nat :| first in pool;
    var rest := pool - {first};
    m := first;
    if rest != {} {
      var n := OldestMember(outbox, rest);
      m := if outbox[first].createdAt <= outbox[n].createdAt then first else n;
    }
    forall k | k in pool
      ensures outbox[m].createdAt <= outbox[k].createdAt
    {
      assert k == first || k in rest;
    }
  }

  lemma {:induction false} OldestExists(limit: nat, outbox: seq<OutboxRow>, pool: set<nat>) returns (rows: seq<nat>)
    requires forall k :: k in pool ==> k < |outbox|
    ensures Oldest(rows, limit, outbox, pool)
    decreases limit
  {
    if limit == 0 || pool == {} {
      rows := [];
    } else {
      var m := OldestMember(outbox, pool);
      var rest := OldestExists(limit - 1, outbox, pool - {m});
      rows := [m] + rest;
      forall k | k in pool && k !in rows
        ensures |rows| == limit && forall x :: 0 <= x < |rows| ==> outbox[rows[x]].createdAt <= outbox[k].createdAt
      {
        assert m in rows && forall r :: r in rest ==> r in rows;
        assert k in pool - {m} && k !in rest;
      }
    }
  }

  /** Rows the next fetch may return. */
  ghost function Pending(s: Sys): set<nat> {
    set k | k in s.visible && Unpublished(s.outbox, s.visible, s.published, k)
  }

  /** Whatever the tables hold, some answer of the fetch query exists. */
  lemma {:induction false} FetchExists(s: Sys) returns (rows: seq<nat>)
    ensures IsFetch(rows, BATCH, s.outbox, s.visible, s.published)
  {
    rows := OldestExists(BATCH, s.outbox, Pending(s));
  }

  // ---- one drain without faults ----

  predicate Faultless(f: RowFate) {
    f.publish.first == Delivered && f.marked
  }

  datatype Drain = Drain(rows: seq<nat>, fates: seq<RowFate>)

  ghost predicate FaultlessDrain(outbox: seq<OutboxRow>, d: Drain) {
    && |d.rows| == |d.fates|
    && (forall x :: 0 <= x < |d.rows| ==> d.rows[x] < |outbox|)
    && forall x :: 0 <= x < |d.fates| ==> Faultless(d.fates[x])
  }

  /** The envelopes of the well-formed rows of a batch. */
  function BatchEnvelopes(outbox: seq<OutboxRow>, rows: seq<nat>): seq<Envelope>
    requires forall x :: 0 <= x < |rows| ==> rows[x] < |outbox|
  {
    if rows == [] then []
    else (if outbox[rows[0]].body.WellFormed? then [outbox[rows[0]].body.env] else [])
         + BatchEnvelopes(outbox, rows[1..])
  }

  ghost function WellFormedIn(outbox: seq<OutboxRow>, rows: seq<nat>): set<nat> {
    set k | k in rows && k < |outbox| && outbox[k].body.WellFormed?
  }

  /** t is s after the relay has published and marked the well-formed rows of the batch, and nothing else. */
  ghost predicate Handled(s: Sys, t: Sys, rows: seq<nat>)
    requires forall x :: 0 <= x < |rows| ==> rows[x] < |s.outbox|
  {
    && t.published.Keys == s.published.Keys + WellFormedIn(s.outbox, rows)
    && t == s.(published := t.published, clock := t.clock, calls := t.calls, batch := [],
               bus := s.bus + BatchEnvelopes(s.outbox, rows))
  }

  lemma {:induction false} OneStep(s: Sys, a: Action)
    requires Enabled(s, a)
    ensures Exec(s, [a]) == Some(Apply(s, a))
  {
    hide Enabled, Apply;
    assert Exec(s, []) == Some(s);
    ExecSnoc(s, [], a);
    assert [] + [a] == [a];
  }

  /** One row published and marked, in one closed form. */
  lemma {:induction false} PublishAndMark(s: Sys)
    requires s.batch != [] && s.marking.None? && s.batch[0] < |s.outbox| && s.outbox[s.batch[0]].body.WellFormed?
    ensures
      var b := s.batch[0];
      Exec(s, [Publish(true, 1), Mark(true)]) ==
      Some(s.(bus := s.bus + [s.outbox[b].body.env], calls := s.calls + multiset{b}, batch := s.batch[1..],
              published := s.published[b := s.clock], clock := s.clock + 1))
  {
    hide Enabled, Apply, Exec;
    var e := s.outbox[s.batch[0]].body.env;
    assert Repeat(e, 0) == [] && Repeat(e, 1) == Repeat(e, 0) + [e] == [e];
    var t := DoPublish(s, true, 1);
    PublishStep(s, true, 1);
    OneStep(s, Publish(true, 1));
    MarkStep(t, true);
    OneStep(t, Mark(true));
    ExecConcat(s, [Publish(true, 1)], [Mark(true)]);
    assert [Publish(true, 1)] + [Mark(true)] == [Publish(true, 1), Mark(true)];
  }

  /** The steps for one row, from a state whose batch starts with it. */
  lemma {:induction false} HeadRun(s: Sys, f: RowFate)
    requires s.batch != [] && s.marking.None? && s.batch[0] < |s.outbox| && Faultless(f)
    ensures Exec(s, HeadActions(s.outbox[s.batch[0]], f, true)).Some?
    ensures Handled(s.(batch := []), Exec(s, HeadActions(s.outbox[s.batch[0]], f, true)).value.(batch := []), [s.batch[0]])
    ensures Exec(s, HeadActions(s.outbox[s.batch[0]], f, true)).value.batch == s.batch[1..]
  {
    hide Enabled, Apply, Exec;
    var b := s.batch[0];
    var row := s.outbox[b];
    assert BatchEnvelopes(s.outbox, [b][1..]) == [];
    assert BatchEnvelopes(s.outbox, [b]) == if row.body.WellFormed? then [row.body.env] else [];
    if row.body.Malformed? {
      SkipStep(s);
      OneStep(s, Skip);
      assert WellFormedIn(s.outbox, [b]) == {};
      assert s.bus + [] == s.bus && s.published.Keys + {} == s.published.Keys;
    } else {
      PublishAndMark(s);
      assert HeadActions(row, f, true) == [Publish(true, 1), Mark(true)];
      assert WellFormedIn(s.outbox, [b]) == {b};
    }
  }

  lemma {:induction false} HandledTogether(s: Sys, t: Sys, u: Sys, b: nat, rest: seq<nat>)
    requires b < |s.outbox| && forall x :: 0 <= x < |rest| ==> rest[x] < |s.outbox|
    requires t.outbox == s.outbox
    requires Handled(s.(batch := []), t.(batch := []), [b]) && Handled(t, u, rest)
    ensures Handled(s, u, [b] + rest)
  {
    var rows := [b] + rest;
    assert rows[1..] == rest && rows[0] == b;
    assert BatchEnvelopes(s.outbox, [b]) + BatchEnvelopes(s.outbox, rest) == BatchEnvelopes(s.outbox, rows) by {
      assert [b][1..] == [];
    }
    assert s.bus + BatchEnvelopes(s.outbox, [b]) + BatchEnvelopes(s.outbox, rest) ==
           s.bus + BatchEnvelopes(s.outbox, rows);
    assert WellFormedIn(s.outbox, [b]) + WellFormedIn(s.outbox, rest) == WellFormedIn(s.outbox, rows) by {
      forall k
        ensures k in rows <==> k == b || k in rest
      {
      }
    }
  }

  /** The steps for a whole batch. */
  lemma {:induction false} BatchRun(s: Sys, fates: seq<RowFate>)
    requires s.marking.None? && FaultlessDrain(s.outbox, Drain(s.batch, fates))
    ensures Exec(s, RowActions(s.outbox, s.batch, fates, true)).Some?
    ensures Handled(s, Exec(s, RowActions(s.outbox, s.batch, fates, true)).value, s.batch)
    decreases |s.batch|
  {
    hide Exec, Handled, HeadActions;
    if s.batch == [] {
      NothingHandled(s);
    } else {
      var b, rest := s.batch[0], s.batch[1..];
      var head := HeadActions(s.outbox[b], fates[0], true);
      HeadRun(s, fates[0]);
      var t := Exec(s, head).value;
      HandledKeeps(s, t, b);
      BatchRun(t, fates[1..]);
      ExecConcat(s, head, RowActions(s.outbox, rest, fates[1..], true));
      HandledTogether(s, t, Exec(t, RowActions(t.outbox, t.batch, fates[1..], true)).value, b, rest);
      assert [b] + rest == s.batch;
    }
  }

  lemma {:induction false} NothingHandled(s: Sys)
    requires s.batch == []
    ensures Exec(s, []) == Some(s) && Handled(s, s, [])
  {
  }

  lemma {:induction false} HandledKeeps(s: Sys, t: Sys, b: nat)
    requires b < |s.outbox| && Handled(s.(batch := []), t.(batch := []), [b])
    ensures t.outbox == s.outbox && t.marking == s.marking
  {
    assert t.(batch := []).outbox == t.outbox && t.(batch := []).marking == t.marking;
  }

  ghost function DrainActions(outbox: seq<OutboxRow>, d: Drain): seq<Action>
    requires FaultlessDrain(outbox, d)
  {
    [Fetch(d.rows)] + RowActions(outbox, d.rows, d.fates, true)
  }

  /** The relay is between two drains. */
  predicate Idle(s: Sys) {
    s.batch == [] && s.marking.None?
  }

  /** A fault-free drain runs exactly on the answers of the fetch query, and handles exactly those rows. */
  lemma {:induction false} DrainRun(s: Sys, d: Drain)
    requires Idle(s) && FaultlessDrain(s.outbox, d)
    ensures Exec(s, DrainActions(s.outbox, d)).Some? <==> IsFetch(d.rows, BATCH, s.outbox, s.visible, s.published)
    ensures Exec(s, DrainActions(s.outbox, d)).Some? ==>
              Idle(Exec(s, DrainActions(s.outbox, d)).value)
              && Handled(s, Exec(s, DrainActions(s.outbox, d)).value, d.rows)
  {
    hide Handled, RowActions, IsFetch, Exec;
    var rest := RowActions(s.outbox, d.rows, d.fates, true);
    var acts := DrainActions(s.outbox, d);
    assert acts[..1] == [Fetch(d.rows)];
    if Exec(s, acts).Some? {
      ExecPrefix(s, acts, 1);
    }
    FetchRun(s, d.rows);
    if IsFetch(d.rows, BATCH, s.outbox, s.visible, s.published) {
      var t := s.(batch := d.rows);
      BatchRun(t, d.fates);
      ExecConcat(s, [Fetch(d.rows)], rest);
      HandledFrom(s, t, Exec(t, rest).value, d.rows);
    }
  }

  lemma {:induction false} FetchRun(s: Sys, rows: seq<nat>)
    requires Idle(s)
    ensures Exec(s, [Fetch(rows)]) ==
            if IsFetch(rows, BATCH, s.outbox, s.visible, s.published) then Some(s.(batch := rows)) else None
  {
    hide IsFetch;
    assert Exec(s, []) == Some(s);
    assert [Fetch(rows)][..0] == [];
  }

  lemma {:induction false} HandledFrom(s: Sys, t: Sys, u: Sys, rows: seq<nat>)
    requires Idle(s) && t == s.(batch := rows) && forall x :: 0 <= x < |rows| ==> rows[x] < |s.outbox|
    requires Handled(t, u, rows)
    ensures Handled(s, u, rows) && Idle(u)
  {
  }

  // ---- retries ----

  /** The publish is delivered, at the first attempt on a live channel or after a reconnect, and the mark works. */
  predicate Served(f: RowFate, connected: bool) {
    && f.marked
    && ((connected && f.publish.first == Delivered) || (f.publish.reconnects && f.publish.second == Delivered))
  }

  /** t is s after the batch was served: its good rows are on the bus and marked, and the tables as they were. */
  ghost predicate AllServed(s: Sys, t: Sys, rows: seq<nat>)
    requires forall x :: 0 <= x < |rows| ==> rows[x] < |s.outbox|
  {
    && t.published.Keys == s.published.Keys + WellFormedIn(s.outbox, rows)
    && s.bus <= t.bus && (forall k :: k in WellFormedIn(s.outbox, rows) ==> s.outbox[k].body.env in t.bus)
    && t == s.(published := t.published, clock := t.clock, calls := t.calls, batch := t.batch, bus := t.bus)
  }

  /** A row whose first send fails and whose retry is delivered is marked, and the batch goes on. */
  lemma {:induction false} ServedHead(s: Sys, f: RowFate, connected: bool)
    requires s.batch != [] && s.marking.None? && s.batch[0] < |s.outbox|
    requires s.outbox[s.batch[0]].body.WellFormed? ==> Served(f, connected)
    ensures Exec(s, HeadActions(s.outbox[s.batch[0]], f, connected)).Some?
    ensures GoesOn(s.outbox[s.batch[0]], f, connected)
    ensures
      var t := Exec(s, HeadActions(s.outbox[s.batch[0]], f, connected)).value;
      AllServed(s, t, [s.batch[0]]) && t.batch == s.batch[1..]
  {
    hide Enabled, Apply, Exec, Repeat, PublishOk, PublishCopies, Retries;
    var b := s.batch[0];
    var row := s.outbox[b];
    if row.body.Malformed? {
      SkipStep(s);
      OneStep(s, Skip);
      assert WellFormedIn(s.outbox, [b]) == {};
    } else {
      PublishExactly(f.publish, connected);
      PublishCopiesBounded(f.publish, connected);
      var n := PublishCopies(f.publish, connected);
      RepeatLength(row.body.env, n);
      PublishStep(s, true, n);
      OneStep(s, Publish(true, n));
      var t := DoPublish(s, true, n);
      assert t.bus[|s.bus|] == row.body.env;
      MarkStep(t, true);
      OneStep(t, Mark(true));
      ExecConcat(s, [Publish(true, n)], [Mark(true)]);
      assert WellFormedIn(s.outbox, [b]) == {b};
    }
  }

  /** A whole batch in which every publish is delivered sooner or later and every mark works. */
  lemma {:induction false} ServedBatchRun(s: Sys, fates: seq<RowFate>, connected: bool)
    requires s.marking.None? && |fates| == |s.batch| && forall x :: 0 <= x < |s.batch| ==> s.batch[x] < |s.outbox|
    requires forall x :: 0 <= x < |fates| && s.outbox[s.batch[x]].body.WellFormed? ==> Served(fates[x], connected)
    ensures Exec(s, RowActions(s.outbox, s.batch, fates, connected)).Some?
    ensures
      var t := Exec(s, RowActions(s.outbox, s.batch, fates, connected)).value;
      AllServed(s, t, s.batch) && t.batch == []
    decreases |s.batch|
  {
    hide Exec, HeadActions, GoesOn, AllServed;
    if s.batch == [] {
      NothingServed(s);
    } else {
      var b, rest := s.batch[0], s.batch[1..];
      var head := HeadActions(s.outbox[b], fates[0], connected);
      ServedHead(s, fates[0], connected);
      var t := Exec(s, head).value;
      ServedKeeps(s, t, b);
      var live := ConnectedAfter(s.outbox[b], fates[0], connected);
      ServedBatchRun(t, fates[1..], live);
      ExecConcat(s, head, RowActions(s.outbox, rest, fates[1..], live));
      ServedTogether(s, t, Exec(t, RowActions(t.outbox, t.batch, fates[1..], live)).value, b, rest);
      assert [b] + rest == s.batch;
    }
  }

  lemma {:induction false} NothingServed(s: Sys)
    requires s.batch == []
    ensures Exec(s, []) == Some(s) && AllServed(s, s, [])
  {
  }

  lemma {:induction false} ServedKeeps(s: Sys, t: Sys, b: nat)
    requires b < |s.outbox| && AllServed(s, t, [b])
    ensures t.outbox == s.outbox && t.marking == s.marking
  {
  }

  lemma {:induction false} ServedTogether(s: Sys, t: Sys, u: Sys, b: nat, rest: seq<nat>)
    requires b < |s.outbox| && forall x :: 0 <= x < |rest| ==> rest[x] < |s.outbox|
    requires t.outbox == s.outbox && AllServed(s, t, [b]) && AllServed(t, u, rest)
    ensures AllServed(s, u, [b] + rest)
  {
    assert WellFormedIn(s.outbox, [b]) + WellFormedIn(s.outbox, rest) == WellFormedIn(s.outbox, [b] + rest) by {
      forall k
        ensures k in [b] + rest <==> k == b || k in rest
      {
      }
    }
  }

  // ---- how much one drain achieves ----

  ghost function PendingGood(s: Sys): set<nat> {
    set k | k in Pending(s) && s.outbox[k].body.WellFormed?
  }

  /** Malformed rows waiting that some waiting well-formed row is not older than. */
  ghost function Ahead(s: Sys): set<nat> {
    set b | b in Pending(s) && s.outbox[b].body.Malformed?
            && exists g :: g in PendingGood(s) && s.outbox[b].createdAt <= s.outbox[g].createdAt
  }

  lemma {:induction false} DistinctCount(rows: seq<nat>)
    requires forall x, y :: 0 <= x < y < |rows| ==> rows[x] != rows[y]
    ensures |Elements(rows)| == |rows|
  {
    if rows != [] {
      var n := |rows| - 1;
      DistinctCount(rows[..n]);
      assert Elements(rows) == Elements(rows[..n]) + {rows[n]};
    }
  }

  lemma {:induction false} HandledPending(s: Sys, t: Sys, rows: seq<nat>)
    requires IsFetch(rows, BATCH, s.outbox, s.visible, s.published) && Handled(s, t, rows)
    ensures PendingGood(t) == PendingGood(s) - Elements(rows)
    ensures Ahead(t) <= Ahead(s)
  {
    assert forall k :: k in t.published <==> k in s.published || k in WellFormedIn(s.outbox, rows);
  }

  /** Malformed rows in a fetch that leaves a well-formed row behind are all ahead of it. */
  lemma {:induction false} FetchedBadAreAhead(s: Sys, rows: seq<nat>, g: nat)
    requires IsFetch(rows, BATCH, s.outbox, s.visible, s.published)
    requires g in PendingGood(s) && g !in rows
    ensures |rows| == BATCH
    ensures Elements(rows) <= PendingGood(s) + Ahead(s)
  {
    assert Unpublished(s.outbox, s.visible, s.published, g);
    forall k | k in Elements(rows)
      ensures k in PendingGood(s) + Ahead(s)
    {
      var x :| 0 <= x < |rows| && rows[x] == k;
      assert Unpublished(s.outbox, s.visible, s.published, k);
      assert s.outbox[k].createdAt <= s.outbox[g].createdAt;
    }
  }

  lemma {:induction false} SetsCount(a: set<nat>, b: set<nat>, c: set<nat>)
    requires c <= a + b
    ensures |a - c| + |c| <= |a| + |b|
  {
    assert a == (a - c) + (a * c) && |a| == |a - c| + |a * c|;
    assert c == (a * c) + (c - a) && |c| == |a * c| + |c - a|;
    assert c - a <= b;
    Subset(c - a, b);
  }

  lemma {:induction false} Subset(a: set<nat>, b: set<nat>)
    requires a <= b
    ensures |a| <= |b|
  {
    assert b == a + (b - a);
  }

  /** A drain either leaves no well-formed row or shortens their queue by the room the malformed ones leave. */
  lemma {:induction false} DrainProgress(s: Sys, d: Drain)
    requires Idle(s) && FaultlessDrain(s.outbox, d) && Exec(s, DrainActions(s.outbox, d)).Some?
    ensures
      var t := Exec(s, DrainActions(s.outbox, d)).value;
      && PendingGood(t) <= PendingGood(s) && |Ahead(t)| <= |Ahead(s)|
      && (PendingGood(t) == {} || |PendingGood(t)| + BATCH <= |PendingGood(s)| + |Ahead(s)|)
  {
    hide Exec, IsFetch, Handled, DrainActions, FaultlessDrain, PendingGood, Ahead;
    DrainRun(s, d);
    var t := Exec(s, DrainActions(s.outbox, d)).value;
    HandledPending(s, t, d.rows);
    Subset(Ahead(t), Ahead(s));
    if PendingGood(t) != {} {
      var g :| g in PendingGood(t);
      FetchedBadAreAhead(s, d.rows, g);
      FetchDistinct(s, d.rows);
      DistinctCount(d.rows);
      SetsCount(PendingGood(s), Ahead(s), Elements(d.rows));
    }
  }

  lemma {:induction false} FetchDistinct(s: Sys, rows: seq<nat>)
    requires IsFetch(rows, BATCH, s.outbox, s.visible, s.published)
    ensures forall x, y :: 0 <= x < y < |rows| ==> rows[x] != rows[y]
  {
  }

  // ---- many drains ----

  ghost predicate FaultlessDrains(outbox: seq<OutboxRow>, ds: seq<Drain>) {
    forall x :: 0 <= x < |ds| ==> FaultlessDrain(outbox, ds[x])
  }

  /** The steps of a series of drains with nothing in between. */
  ghost function DrainsActions(outbox: seq<OutboxRow>, ds: seq<Drain>): seq<Action>
    requires FaultlessDrains(outbox, ds)
  {
    if ds == [] then [] else DrainActions(outbox, ds[0]) + DrainsActions(outbox, ds[1..])
  }

  /** The first drain of a series that runs, and the rest of it. */
  lemma {:induction false} FirstDrain(s: Sys, ds: seq<Drain>)
    requires Idle(s) && FaultlessDrains(s.outbox, ds) && ds != []
    requires Exec(s, DrainsActions(s.outbox, ds)).Some?
    ensures Exec(s, DrainActions(s.outbox, ds[0])).Some?
    ensures
      var t := Exec(s, DrainActions(s.outbox, ds[0])).value;
      && Idle(t) && t.outbox == s.outbox
      && Exec(s, DrainsActions(s.outbox, ds)) == Exec(t, DrainsActions(s.outbox, ds[1..]))
  {
    hide Exec, DrainActions, IsFetch;
    var head := DrainActions(s.outbox, ds[0]);
    var rest := DrainsActions(s.outbox, ds[1..]);
    assert (head + rest)[..|head|] == head;
    ExecPrefix(s, head + rest, |head|);
    ExecConcat(s, head, rest);
    DrainRun(s, ds[0]);
  }

  /**
   * With P well-formed rows waiting, m < 100 malformed rows ahead of some of them, no faults
   * and no new arrivals, P / (100 - m) drains, rounded up, publish and mark all P.
   */
  lemma {:induction false} ProgressBound(s: Sys, ds: seq<Drain>)
    requires Idle(s) && FaultlessDrains(s.outbox, ds) && Exec(s, DrainsActions(s.outbox, ds)).Some?
    requires |Ahead(s)| < BATCH
    requires |ds| * (BATCH - |Ahead(s)|) >= |PendingGood(s)|
    ensures PendingGood(Exec(s, DrainsActions(s.outbox, ds)).value) == {}
    decreases |ds|
  {
    hide Exec, PendingGood, Ahead, DrainActions, FaultlessDrain;
    if ds != [] {
      FirstDrain(s, ds);
      DrainProgress(s, ds[0]);
      var t := Exec(s, DrainActions(s.outbox, ds[0])).value;
      var room, less := BATCH - |Ahead(s)|, BATCH - |Ahead(t)|;
      var n := |ds| - 1;
      Room(n, room, less);
      assert (n + 1) * room == n * room + room;
      ProgressBound(t, ds[1..]);
    } else {
      NoDrains(s);
    }
  }

  lemma {:induction false} NoDrains(s: Sys)
    ensures Exec(s, DrainsActions(s.outbox, [])) == Some(s)
  {
  }

  lemma {:induction false} Room(n: nat, room: nat, less: nat)
    requires room <= less
    ensures n * room <= n * less
  {
  }

  /** n fault-free drains can always be taken. */
  lemma {:induction false} DrainsExist(s: Sys, n: nat) returns (ds: seq<Drain>)
    requires Idle(s)
    ensures |ds| == n && FaultlessDrains(s.outbox, ds) && Exec(s, DrainsActions(s.outbox, ds)).Some?
    decreases n
  {
    hide Exec, DrainActions, IsFetch, Handled;
    if n == 0 {
      ds := [];
      NoDrains(s);
    } else {
      var rows := FetchExists(s);
      var fine := RowFate(PublishFate(Delivered, false, Delivered), true);
      var d := Drain(rows, seq(|rows|, _ => fine));
      FetchInRange(s, rows);
      DrainRun(s, d);
      var t := Exec(s, DrainActions(s.outbox, d)).value;
      HandledOutbox(s, t, rows);
      var rest := DrainsExist(t, n - 1);
      ds := [d] + rest;
      assert ds[1..] == rest;
      ExecConcat(s, DrainActions(s.outbox, d), DrainsActions(s.outbox, rest));
    }
  }

  lemma {:induction false} HandledOutbox(s: Sys, t: Sys, rows: seq<nat>)
    requires forall x :: 0 <= x < |rows| ==> rows[x] < |s.outbox|
    requires Handled(s, t, rows)
    ensures t.outbox == s.outbox
  {
  }

  lemma {:induction false} FetchInRange(s: Sys, rows: seq<nat>)
    requires IsFetch(rows, BATCH, s.outbox, s.visible, s.published)
    ensures forall x :: 0 <= x < |rows| ==> rows[x] < |s.outbox|
  {
  }

  // ---- starvation ----

  /** A full batch of malformed rows is older than row g, which the relay does not hold. */
  ghost predicate Blocked(s: Sys, g: nat, bad: set<nat>) {
    && |bad| >= BATCH
    && g < |s.outbox| && g !in s.published && g !in s.batch && s.marking != Some(g)
    && (s.marking.Some? ==> s.marking.value < |s.outbox| && s.outbox[s.marking.value].body.WellFormed?)
    && forall b :: b in bad ==>
         && Unpublished(s.outbox, s.visible, s.published, b)
         && s.outbox[b].body.Malformed? && s.outbox[b].createdAt < s.outbox[g].createdAt
  }

  lemma {:induction false} BlockedFetch(s: Sys, g: nat, bad: set<nat>, rows: seq<nat>)
    requires Blocked(s, g, bad) && IsFetch(rows, BATCH, s.outbox, s.visible, s.published)
    ensures g !in rows
  {
    if g in rows {
      FetchDistinct(s, rows);
      DistinctCount(rows);
      if bad <= Elements(rows) {
        Subset(bad + {g}, Elements(rows));
        assert false;
      }
    }
  }

  lemma {:induction false} StepKeepsBlocked(s: Sys, g: nat, bad: set<nat>, a: Action)
    requires Blocked(s, g, bad) && Enabled(s, a)
    ensures Blocked(Apply(s, a), g, bad)
  {
    hide IsFetch, UniqueExternal, Writes, StagedOk, RowFor, ValidCreate, PreparedCreate, LockedBy, AuditFor, PatchTxFor,
         Repeat;
    if a.Fetch? {
      BlockedFetch(s, g, bad, a.rows);
    }
  }

  /** Behind 100 malformed rows a row is never published, in any run, whatever else happens. */
  lemma {:induction false} StarvedForever(s: Sys, g: nat, bad: set<nat>, acts: seq<Action>)
    requires Blocked(s, g, bad) && Exec(s, acts).Some?
    ensures Blocked(Exec(s, acts).value, g, bad)
  {
    hide Blocked, Enabled, Apply;
    if acts != [] {
      var n := |acts| - 1;
      StarvedForever(s, g, bad, acts[..n]);
      StepKeepsBlocked(Exec(s, acts[..n]).value, g, bad, acts[n]);
    }
  }

  lemma {:induction false} YoungestMember(outbox: seq<OutboxRow>, pool: set<nat>) returns (m: nat)
    requires pool != {} && forall k :: k in pool ==> k < |outbox|
    ensures m in pool && forall k :: k in pool ==> outbox[k].createdAt <= outbox[m].createdAt
    decreases |pool|
  {
    var first: nat :| first in pool;
    var rest := pool - {first};
    m := first;
    if rest != {} {
      var n := YoungestMember(outbox, rest);
      m := if outbox[n].createdAt <= outbox[first].createdAt then first else n;
    }
    forall k | k in pool
      ensures outbox[k].createdAt <= outbox[m].createdAt
    {
      assert k == first || k in rest;
    }
  }

  /** Some series of fault-free drains publishes every well-formed row that is waiting. */
  ghost predicate CanEmpty(s: Sys) {
    exists ds: seq<Drain> ::
      && FaultlessDrains(s.outbox, ds) && Exec(s, DrainsActions(s.outbox, ds)).Some?
      && PendingGood(Exec(s, DrainsActions(s.outbox, ds)).value) == {}
  }

  lemma {:induction false} BlockedByAhead(s: Sys) returns (g: nat)
    requires Idle(s) && DistinctStamps(s.outbox) && |Ahead(s)| >= BATCH
    ensures g in PendingGood(s) && Blocked(s, g, Ahead(s))
  {
    if PendingGood(s) == {} {
      assert false;
    }
    g := YoungestMember(s.outbox, PendingGood(s));
    forall b | b in Ahead(s)
      ensures s.outbox[b].createdAt < s.outbox[g].createdAt
    {
      assert b in Pending(s) && g in Pending(s) && b != g;
      assert s.outbox[b].createdAt <= s.outbox[g].createdAt;
    }
  }

  /** Waiting rows can all be published exactly when fewer than 100 malformed rows are ahead of the youngest. */
  lemma {:induction false} EmptiesExactlyBelowBatch(s: Sys)
    requires Reachable(s) && Idle(s)
    ensures CanEmpty(s) <==> |Ahead(s)| < BATCH
  {
    hide Exec, PendingGood, Ahead, DrainActions, FaultlessDrain, Blocked, DrainsActions, Reachable, DistinctStamps;
    ReachableTimesDistinct(s);
    if |Ahead(s)| < BATCH {
      var ds := DrainsExist(s, |PendingGood(s)|);
      Room(|PendingGood(s)|, 1, BATCH - |Ahead(s)|);
      ProgressBound(s, ds);
    } else {
      var g := BlockedByAhead(s);
      forall ds: seq<Drain> | FaultlessDrains(s.outbox, ds) && Exec(s, DrainsActions(s.outbox, ds)).Some?
        ensures PendingGood(Exec(s, DrainsActions(s.outbox, ds)).value) != {}
      {
        StarvedForever(s, g, Ahead(s), DrainsActions(s.outbox, ds));
        StillPending(s, g, Ahead(s), DrainsActions(s.outbox, ds));
      }
    }
  }

  /** A blocked row is still waiting after any run. */
  lemma {:induction false} StillPending(s: Sys, g: nat, bad: set<nat>, acts: seq<Action>)
    requires Exec(s, acts).Some? && g in PendingGood(s)
    requires Blocked(Exec(s, acts).value, g, bad)
    ensures g in PendingGood(Exec(s, acts).value)
  {
    RunKeepsRow(s, g, acts);
  }

  lemma {:induction false} RunKeepsRow(s: Sys, k: nat, acts: seq<Action>)
    requires Exec(s, acts).Some? && k in s.visible && k < |s.outbox|
    ensures
      var t := Exec(s, acts).value;
      k in t.visible && k < |t.outbox| && t.outbox[k] == s.outbox[k]
  {
    hide Enabled, Apply;
    if acts != [] {
      var n := |acts| - 1;
      RunKeepsRow(s, k, acts[..n]);
      StepKeepsRow(Exec(s, acts[..n]).value, k, acts[n]);
    }
  }

  lemma {:induction false} StepKeepsRow(s: Sys, k: nat, a: Action)
    requires Enabled(s, a) && k in s.visible && k < |s.outbox|
    ensures
      var t := Apply(s, a);
      k in t.visible && k < |t.outbox| && t.outbox[k] == s.outbox[k]
  {
    hide IsFetch, UniqueExternal, Writes, StagedOk, RowFor, ValidCreate, PreparedCreate, LockedBy, AuditFor, PatchTxFor,
         Repeat;
  }

  // ---- starvation happens ----

  /** n rows that do not decode, one after the other. */
  function MalformedInserts(tenant: Uuid, n: nat): seq<Action> {
    if n == 0 then [] else MalformedInserts(tenant, n - 1) + [InsertMalformed(tenant)]
  }

  /** n malformed rows wait, the youngest of them older than the clock. */
  ghost predicate OnlyMalformed(s: Sys, n: nat) {
    && |s.outbox| == n && s.published == map[] && s.open == map[] && s.incidents == map[] && Idle(s)
    && forall k: nat :: k < n ==> k in s.visible && s.outbox[k].body.Malformed? && s.outbox[k].createdAt < s.clock
  }

  lemma {:induction false} MalformedRun(tenant: Uuid, n: nat)
    ensures Exec(Init(), MalformedInserts(tenant, n)).Some?
    ensures OnlyMalformed(Exec(Init(), MalformedInserts(tenant, n)).value, n)
  {
    if n > 0 {
      MalformedRun(tenant, n - 1);
      var s := Exec(Init(), MalformedInserts(tenant, n - 1)).value;
      ExecSnoc(Init(), MalformedInserts(tenant, n - 1), InsertMalformed(tenant));
      assert Exec(Init(), MalformedInserts(tenant, n)) == Some(DoInsertMalformed(s, tenant));
    }
  }

  /** The first n positions of the table. */
  function FirstN(n: nat): set<nat> {
    Elements(Positions(0, n))
  }

  lemma {:induction false} FirstNCount(n: nat)
    ensures |FirstN(n)| == n && forall k :: k in FirstN(n) ==> k < n
  {
    DistinctCount(Positions(0, n));
  }

  /** A hundred malformed rows and then one Create: a reachable state in which the created event is blocked for good. */
  lemma {:induction false} StarvationHappens() returns (acts: seq<Action>, g: nat)
    ensures Exec(Init(), acts).Some?
    ensures
      var s := Exec(Init(), acts).value;
      Idle(s) && g in PendingGood(s) && Blocked(s, g, FirstN(BATCH))
  {
    hide Exec, Init, TablesOk, DeliveryOk, CountsOk, MalformedInserts, PreparedCreate, CreateActions;
    var c := CreateCall(Principal("user", "ada"), 1, CreateInput(None, "disk full", None, High, None, None, None, None), 1);
    MalformedRun(1, BATCH);
    var bad := MalformedInserts(1, BATCH);
    var s := Exec(Init(), bad).value;
    ReachableIsSound(bad);
    PreparedFacts(c, s.clock, s.nextId);
    PreparedStamp(c, s.clock, s.nextId);
    CreateAlone(s, c);
    ExecConcat(Init(), bad, CreateActions(s, c));
    acts := bad + CreateActions(s, c);
    g := BATCH;
    FirstNCount(BATCH);
    var t := Exec(Init(), acts).value;
    assert Unpublished(t.outbox, t.visible, t.published, g);
    forall b | b in FirstN(BATCH)
      ensures Unpublished(t.outbox, t.visible, t.published, b) && t.outbox[b] == s.outbox[b]
    {
    }
  }

  lemma {:induction false} PreparedStamp(c: CreateCall, clock: Time, nextId: Uuid)
    ensures PreparedCreate(c, clock, nextId).todo[0].row.createdAt == clock
  {
  }
}
