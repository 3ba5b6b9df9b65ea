/** One Publish call, and the steps one drain takes for its rows. */
module Publishing {
  import opened Prelude
  import opened Domain
  import opened Outbox
  import opened Machine
  import opened Database

  /** What one attempt on the channel does: an error can come with or without the message delivered. */
  datatype Attempt = Delivered | ErrorButDelivered | ErrorAndLost

  /** The outcomes of one Publish call: the first attempt, the reconnect, the second attempt. */
  datatype PublishFate = PublishFate(first: Attempt, reconnects: bool, second: Attempt)

  /** What happens to one fetched row. */
  datatype RowFate = RowFate(publish: PublishFate, marked: bool)

  function AttemptCopies(a: Attempt): nat {
    if a == ErrorAndLost then 0 else 1
  }

  /** Without a channel the first attempt fails before it sends anything. */
  function FirstAttempt(f: PublishFate, connected: bool): Attempt {
    if connected then f.first else ErrorAndLost
  }

  /** Is the second attempt made? */
  predicate Retries(f: PublishFate, connected: bool) {
    FirstAttempt(f, connected) != Delivered && f.reconnects
  }

  function PublishOk(f: PublishFate, connected: bool): bool {
    FirstAttempt(f, connected) == Delivered || (Retries(f, connected) && f.second == Delivered)
  }

  function PublishCopies(f: PublishFate, connected: bool): nat {
    AttemptCopies(FirstAttempt(f, connected)) + if Retries(f, connected) then AttemptCopies(f.second) else 0
  }

  /** One Publish call puts at most two copies on the bus, and at least one when it reports success. */
  lemma {:induction false} PublishCopiesBounded(f: PublishFate, connected: bool)
    ensures PublishCopies(f, connected) <= 2
    ensures PublishOk(f, connected) ==> PublishCopies(f, connected) >= 1
    ensures PublishCopies(f, connected) == 2 ==> Retries(f, connected)
  {
  }

  /** What a Publish call reports and delivers, attempt by attempt. */
  lemma {:induction false} PublishExactly(f: PublishFate, connected: bool)
    ensures PublishOk(f, connected) <==> (connected && f.first == Delivered) || (f.reconnects && f.second == Delivered)
    ensures
      PublishCopies(f, connected) ==
      (if connected && f.first != ErrorAndLost then 1 else 0)
      + (if !(connected && f.first == Delivered) && f.reconnects && f.second != ErrorAndLost then 1 else 0)
    ensures Retries(f, connected) <==> !(connected && f.first == Delivered) && f.reconnects
  {
  }

  lemma {:induction false} RepeatLength(e: Envelope, n: nat)
    ensures |Repeat(e, n)| == n && forall x :: 0 <= x < n ==> Repeat(e, n)[x] == e
  {
    if n > 0 {
      RepeatLength(e, n - 1);
    }
  }

  lemma {:induction false} RepeatArrives(before: seq<Envelope>, e: Envelope, n: nat)
    requires n > 0
    ensures e in before + Repeat(e, n)
  {
    RepeatLength(e, n);
    assert Repeat(e, n)[0] == e;
  }

  class Publisher {
    const store: Store
    var connected: bool

    constructor (store: Store)
      ensures this.store == store && connected
    {
      this.store := store;
      connected := true;
    }

    /** One send on the current channel. */
    method Send(e: Envelope, a: Attempt) returns (ok: bool)
      modifies store`bus
      ensures ok == (connected && a == Delivered)
      ensures store.bus == old(store.bus) + Repeat(e, if connected then AttemptCopies(a) else 0)
    {
      assert Repeat(e, 0) == [] && Repeat(e, 1) == Repeat(e, 0) + [e];
      if !connected {
        return false;
      }
      if a != ErrorAndLost {
        store.bus := store.bus + [e];
      }
      return a == Delivered;
    }

    /**
     * Publishes one envelope, with a single reconnect and retry. It succeeds exactly when the
     * last attempt made was delivered: the first one on a live channel, or the one after a reconnect.
     */
    method Publish(e: Envelope, f: PublishFate) returns (ok: bool)
      modifies this`connected, store`bus
      ensures ok <==> (old(connected) && f.first == Delivered) || (f.reconnects && f.second == Delivered)
      ensures connected == (old(connected) || f.reconnects)
      ensures
        var firstArrives := old(connected) && f.first != ErrorAndLost;
        var secondArrives := !(old(connected) && f.first == Delivered) && f.reconnects && f.second != ErrorAndLost;
        |store.bus| == |old(store.bus)| + (if firstArrives then 1 else 0) + (if secondArrives then 1 else 0)
      ensures ok == PublishOk(f, old(connected))
      ensures store.bus == old(store.bus) + Repeat(e, PublishCopies(f, old(connected)))
      ensures connected == (old(connected) || Retries(f, old(connected)))
    {
      RepeatLength(e, PublishCopies(f, connected));
      PublishExactly(f, connected);
      ghost var before := store.bus;
      ok := Send(e, f.first);
      if !ok {
        if !f.reconnects {
          return false;
        }
        connected := true;
        ok := Send(e, f.second);
        RepeatTwice(e, AttemptCopies(FirstAttempt(f, old(connected))), AttemptCopies(f.second));
      }
    }
  }

  lemma {:induction false} RepeatTwice(e: Envelope, m: nat, n: nat)
    ensures Repeat(e, m + n) == Repeat(e, m) + Repeat(e, n)
  {
    if n > 0 {
      RepeatTwice(e, m, n - 1);
    }
  }

  /** The steps for one fetched row. */
  function HeadActions(row: OutboxRow, f: RowFate, connected: bool): seq<Action> {
    if row.body.Malformed? then
      [Skip]
    else
      [Publish(PublishOk(f.publish, connected), PublishCopies(f.publish, connected))]
      + if PublishOk(f.publish, connected) then [Mark(f.marked)] else []
  }

  /** A failed publish ends the drain; a malformed row or a failed mark does not. */
  predicate GoesOn(row: OutboxRow, f: RowFate, connected: bool) {
    row.body.Malformed? || PublishOk(f.publish, connected)
  }

  predicate ConnectedAfter(row: OutboxRow, f: RowFate, connected: bool) {
    connected || (row.body.WellFormed? && Retries(f.publish, connected))
  }

  /** The steps of one drain over the fetched rows. */
  function RowActions(outbox: seq<OutboxRow>, rows: seq<nat>, fates: seq<RowFate>, connected: bool): seq<Action>
    requires |rows| == |fates| && forall x :: 0 <= x < |rows| ==> rows[x] < |outbox|
    decreases |rows|
  {
    if rows == [] then
      []
    else
      var row := outbox[rows[0]];
      HeadActions(row, fates[0], connected)
      + if GoesOn(row, fates[0], connected) then
          RowActions(outbox, rows[1..], fates[1..], ConnectedAfter(row, fates[0], connected))
        else []
  }

  /** Steps of the relay alone. */
  predicate RelayOnly(acts: seq<Action>) {
    forall x :: 0 <= x < |acts| ==>
      acts[x].Fetch? || acts[x].Skip? || acts[x].Publish? || acts[x].Mark? || acts[x].Restart?
  }

  lemma {:induction false} RowActionsAreRelay(outbox: seq<OutboxRow>, rows: seq<nat>, fates: seq<RowFate>, connected: bool)
    requires |rows| == |fates| && forall x :: 0 <= x < |rows| ==> rows[x] < |outbox|
    ensures RelayOnly(RowActions(outbox, rows, fates, connected))
    decreases |rows|
  {
    if rows != [] {
      RowActionsAreRelay(outbox, rows[1..], fates[1..], ConnectedAfter(outbox[rows[0]], fates[0], connected));
    }
  }

  lemma {:induction false} MoreRelay(before: seq<Action>, trace: seq<Action>, more: seq<Action>)
    requires before <= trace && RelayOnly(trace[|before|..]) && RelayOnly(more)
    ensures before <= trace + more && RelayOnly((trace + more)[|before|..])
  {
    assert (trace + more)[|before|..] == trace[|before|..] + more;
  }

  lemma {:induction false} SkipStep(s: Sys)
    requires s.marking.None? && s.batch != [] && s.batch[0] < |s.outbox| && s.outbox[s.batch[0]].body.Malformed?
    ensures Enabled(s, Skip) && Apply(s, Skip) == s.(batch := s.batch[1..])
  {
  }

  lemma {:induction false} PublishStep(s: Sys, ok: bool, copies: nat)
    requires s.marking.None? && s.batch != [] && s.batch[0] < |s.outbox| && s.outbox[s.batch[0]].body.WellFormed?
    requires copies <= 2 && (ok ==> copies >= 1)
    ensures Enabled(s, Publish(ok, copies)) && Apply(s, Publish(ok, copies)) == DoPublish(s, ok, copies)
  {
    hide DoPublish;
  }

  lemma {:induction false} MarkStep(s: Sys, ok: bool)
    requires s.marking.Some?
    ensures Enabled(s, Mark(ok)) && Apply(s, Mark(ok)) == DoMark(s, ok)
  {
    hide DoMark;
  }

  lemma {:induction false} RowActionsNone(outbox: seq<OutboxRow>, rows: seq<nat>, fates: seq<RowFate>, connected: bool)
    requires |rows| == |fates| == 0
    ensures RowActions(outbox, rows, fates, connected) == []
  {
  }

  /** A run that goes through the rows from x on begins with the steps for row x. */
  lemma {:induction false} RowActionsUnfold(outbox: seq<OutboxRow>, rows: seq<nat>, fates: seq<RowFate>, x: nat,
                                            before: seq<Action>, connected: bool)
    requires |rows| == |fates| && x < |rows| && forall y :: 0 <= y < |rows| ==> rows[y] < |outbox|
    ensures rows[x..][1..] == rows[x + 1..] && fates[x..][1..] == fates[x + 1..]
    ensures
      before + RowActions(outbox, rows[x..], fates[x..], connected) ==
      before + HeadActions(outbox[rows[x]], fates[x], connected)
      + if GoesOn(outbox[rows[x]], fates[x], connected) then
          RowActions(outbox, rows[x + 1..], fates[x + 1..], ConnectedAfter(outbox[rows[x]], fates[x], connected))
        else []
  {
    hide HeadActions, GoesOn, ConnectedAfter;
    var head := HeadActions(outbox[rows[x]], fates[x], connected);
    assert rows[x..][1..] == rows[x + 1..] && fates[x..][1..] == fates[x + 1..];
    var rest := if GoesOn(outbox[rows[x]], fates[x], connected) then
                  RowActions(outbox, rows[x + 1..], fates[x + 1..], ConnectedAfter(outbox[rows[x]], fates[x], connected))
                else [];
    assert RowActions(outbox, rows[x..], fates[x..], connected) == head + rest;
    assert before + (head + rest) == before + head + rest;
  }

  lemma {:induction false} FetchIsBounded(rows: seq<nat>, outbox: seq<OutboxRow>, visible: set<nat>,
                                          published: map<nat, Time>)
    requires IsFetch(rows, BATCH, outbox, visible, published)
    ensures |rows| <= BATCH && forall x :: 0 <= x < |rows| ==> rows[x] < |outbox|
  {
  }
}
