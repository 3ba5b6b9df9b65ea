/** The database, the clock, the id supply and the bus as mutable state, one method per statement. */
module Database {
  import opened Prelude
  import opened Lifecycle
  import opened Domain
  import opened Auth
  import opened Outbox
  import opened Machine
  import opened Tables

  /**
   * Nothing a reader, the relay or a later request can see differs: the tables, the bus and
   * the relay are as before, and rows added to the outbox are invisible.
   */
  ghost predicate Unseen(s: Sys, t: Sys) {
    && t.incidents == s.incidents && t.audit == s.audit && t.visible == s.visible && t.published == s.published
    && t.bus == s.bus && t.batch == s.batch && t.marking == s.marking
    && t.log == s.log && t.calls == s.calls && t.badMarks == s.badMarks
    && s.outbox <= t.outbox && t.clock >= s.clock && t.nextId >= s.nextId
  }

  lemma {:induction false} UnseenTransitive(s: Sys, t: Sys, u: Sys)
    requires Unseen(s, t) && Unseen(t, u)
    ensures Unseen(s, u)
  {
  }

  /**
   * `incidents`, `audit`, `outbox`, `visible` and `published` are the tables, the `staged`
   * fields what the open transaction has written so far. The ghost `shadow` is the machine
   * state, and the ghost `trace` the run that led there from the empty database.
   */
  class Store {
    var incidents: map<Uuid, IncidentRow>
    var audit: seq<AuditRow>
    var outbox: seq<OutboxRow>
    var visible: set<nat>
    var published: map<nat, Time>
    var bus: seq<Envelope>
    var clock: Time
    var nextId: Uuid
    var stagedRow: Option<IncidentRow>
    var stagedAudit: Option<AuditRow>
    var stagedEvents: seq<nat>

    ghost var shadow: Sys
    ghost var trace: seq<Action>

    /** The tables are those of the machine state; the clock and the ids may have run ahead. */
    ghost predicate Agrees()
      reads this
    {
      && incidents == shadow.incidents && audit == shadow.audit && outbox == shadow.outbox
      && visible == shadow.visible && published == shadow.published && bus == shadow.bus
      && clock >= shadow.clock && nextId >= shadow.nextId
      && (if stagedRow.Some? then Holds(stagedRow.value.id)
          else shadow.open == map[] && stagedAudit == None && stagedEvents == [])
    }

    /** The one open transaction is on `i`, and what it staged is what the machine says. */
    ghost predicate Holds(i: Uuid)
      reads this
    {
      && shadow.open.Keys == {i}
      && stagedRow == Some(shadow.open[i].row)
      && stagedAudit == shadow.open[i].audit
      && stagedEvents == shadow.open[i].staged
    }

    /** The machine state is the one its run leads to. */
    ghost predicate Traced()
      reads this`shadow, this`trace
    {
      Exec(Init(), trace) == Some(shadow)
    }

    ghost predicate Valid()
      reads this
    {
      Traced() && Agrees() && clock == shadow.clock && nextId == shadow.nextId
    }

    constructor ()
      ensures Valid() && shadow == Init() && trace == []
    {
      incidents, audit, outbox, visible, published, bus := map[], [], [], {}, map[], [];
      clock, nextId := 1, 1;
      stagedRow, stagedAudit, stagedEvents := None, None, [];
      shadow, trace := Init(), [];
    }

    /** One reading of the process clock. */
    method Now() returns (t: Time)
      modifies this`clock
      ensures t == old(clock) && clock == t + 1
    {
      t := clock;
      clock := clock + 1;
    }

    /** One fresh id. */
    method NewId() returns (id: Uuid)
      modifies this`nextId
      ensures id == old(nextId) && nextId == id + 1
    {
      id := nextId;
      nextId := nextId + 1;
    }

    /** Appends one action to the run. */
    ghost method Take(a: Action)
      requires Traced() && Enabled(shadow, a)
      modifies this`shadow, this`trace
      ensures Traced() && shadow == Apply(old(shadow), a) && trace == old(trace) + [a]
    {
      hide Enabled, Apply, Init;
      ExecSnoc(Init(), trace, a);
      shadow := Apply(shadow, a);
      trace := trace + [a];
    }

    /** Accounts for ticks and ids drawn by a call that wrote nothing. */
    ghost method CatchUp()
      requires Traced() && Agrees()
      modifies this`shadow, this`trace
      ensures Valid()
      ensures shadow == old(shadow).(clock := clock, nextId := nextId) && Unseen(old(shadow), shadow)
      ensures trace == old(trace) + [Tick(clock - old(shadow).clock, nextId - old(shadow).nextId)]
    {
      hide Exec, Init;
      Take(Tick(clock - shadow.clock, nextId - shadow.nextId));
    }

    /** The row as this transaction sees it, scoped to the tenant. */
    method GetByID(tenant: Uuid, id: Uuid, fails: bool) returns (r: Result<IncidentRow, Error>)
      ensures fails ==> r == Err(Error.Storage)
      ensures !fails && stagedRow.Some? && stagedRow.value.id == id && stagedRow.value.tenant == tenant ==>
                r == Ok(stagedRow.value)
      ensures !fails && stagedRow.None? ==>
                r == if id in incidents && incidents[id].tenant == tenant then Ok(incidents[id]) else Err(NotFound)
    {
      if fails {
        return Err(Error.Storage);
      }
      if stagedRow.Some? && stagedRow.value.id == id && stagedRow.value.tenant == tenant {
        return Ok(stagedRow.value);
      }
      if id !in incidents || incidents[id].tenant != tenant {
        return Err(NotFound);
      }
      return Ok(incidents[id]);
    }

    /** The oldest unpublished row that is not among `taken`. */
    method NextOldest(taken: seq<nat>) returns (next: Option<nat>)
      ensures next.None? ==> forall k: nat :: Unpublished(outbox, visible, published, k) ==> k in taken
      ensures next.Some? ==>
                && Unpublished(outbox, visible, published, next.value) && next.value !in taken
                && forall k: nat :: Unpublished(outbox, visible, published, k) && k !in taken ==>
                     outbox[next.value].createdAt <= outbox[k].createdAt
    {
      next := None;
      for k := 0 to |outbox|
        invariant next.None? ==> forall j: nat :: j < k && Unpublished(outbox, visible, published, j) ==> j in taken
        invariant next.Some? ==>
                    && Unpublished(outbox, visible, published, next.value) && next.value !in taken
                    && forall j: nat :: j < k && Unpublished(outbox, visible, published, j) && j !in taken ==>
                         outbox[next.value].createdAt <= outbox[j].createdAt
      {
        if Unpublished(outbox, visible, published, k) && k !in taken
           && (next.None? || outbox[k].createdAt < outbox[next.value].createdAt)
        {
          next := Some(k);
        }
      }
    }

    /** SELECT of the `limit` oldest unpublished rows, oldest first. */
    method SelectUnpublished(limit: nat) returns (rows: seq<nat>)
      ensures IsFetch(rows, limit, outbox, visible, published)
    {
      rows := [];
      while |rows| < limit
        invariant |rows| <= limit
        invariant forall x :: 0 <= x < |rows| ==> Unpublished(outbox, visible, published, rows[x])
        invariant forall x, y :: 0 <= x < y < |rows| ==>
                    rows[x] != rows[y] && outbox[rows[x]].createdAt <= outbox[rows[y]].createdAt
        invariant forall k: nat, x :: Unpublished(outbox, visible, published, k) && k !in rows && 0 <= x < |rows| ==>
                    outbox[rows[x]].createdAt <= outbox[k].createdAt
        decreases limit - |rows|
      {
        var next := NextOldest(rows);
        if next.None? {
          return;
        }
        rows := rows + [next.value];
      }
    }

    /** Does the partial unique index on (tenant, source connector, external id) refuse the row? */
    predicate Clashes(row: IncidentRow)
      reads this`incidents
    {
      && row.externalId.Some? && row.sourceConnector.Some?
      && exists j :: j in incidents && incidents[j].tenant == row.tenant
                     && incidents[j].sourceConnector == row.sourceConnector && incidents[j].externalId == row.externalId
    }

    /** INSERT of a new incident row. */
    method Insert(row: IncidentRow, ghost c: CreateCall, fails: bool) returns (ok: bool)
      requires Traced() && Agrees() && stagedRow.None?
      requires ValidCreate(c.input) && row == PreparedCreate(c, shadow.clock, shadow.nextId).row
      requires clock == shadow.clock + 2 && nextId == row.id + 2
      modifies this
      ensures Traced() && Agrees()
      ensures clock == old(clock) && nextId == old(nextId)
      ensures ok <==> !fails && !old(Clashes(row))
      ensures Unseen(old(shadow), shadow) && shadow.planned == old(shadow).planned
      ensures ok ==> Valid() && stagedRow == Some(row) && UniqueExternal(old(incidents), row)
      ensures ok ==> shadow == DoOpenCreate(old(shadow), c) && trace == old(trace) + [OpenCreate(c)]
      ensures !ok ==> stagedRow.None? && shadow == old(shadow) && trace == old(trace)
    {
      hide Exec, Init, NewIncident;
      if fails || Clashes(row) {
        return false;
      }
      Take(OpenCreate(c));
      stagedRow := Some(row);
      return true;
    }

    /** The partial UPDATE: the row lock is taken and the new row staged. */
    method Update(ghost tx: PatchTx, id: Uuid, u: IncidentUpdate, fails: bool) returns (ok: bool)
      requires Valid() && stagedRow.None? && id in incidents && incidents[id].id == id
      requires tx in shadow.planned && tx.id == id && tx.plan.upd == u
      modifies this
      ensures Valid()
      ensures ok == !fails
      ensures Unseen(old(shadow), shadow)
      ensures ok ==> stagedRow == Some(ApplyUpdate(old(incidents)[id], u))
      ensures ok ==> shadow == DoLock(old(shadow), tx) && trace == old(trace) + [Lock(tx)]
      ensures !ok ==> stagedRow.None? && shadow == old(shadow).(planned := old(shadow).planned - {tx})
      ensures !ok ==> trace == old(trace) + [Forget(tx)]
    {
      hide Exec, Init, PatchPayloads;
      if fails {
        Take(Forget(tx));
        return false;
      }
      Take(Lock(tx));
      stagedRow := Some(ApplyUpdate(incidents[id], u));
      return true;
    }

    /** INSERT of the audit row of the open transaction. */
    method InsertAudit(a: AuditRow, fails: bool) returns (ok: bool)
      requires Traced() && Agrees() && stagedRow.Some? && stagedAudit.None?
      requires clock == shadow.clock + 1 && nextId == shadow.nextId + 1
      requires a == AuditFor(shadow.open[stagedRow.value.id], shadow.nextId, shadow.clock)
      modifies this
      ensures Valid()
      ensures ok == !fails
      ensures stagedRow == old(stagedRow)
      ensures Unseen(old(shadow), shadow) && shadow.planned == old(shadow).planned
      ensures ok ==> stagedAudit == Some(a)
      ensures ok ==> shadow == DoRecord(old(shadow), stagedRow.value.id)
      ensures ok ==> trace == old(trace) + [Record(stagedRow.value.id)]
      ensures clock >= old(clock) && nextId >= old(nextId)
      ensures !ok ==> shadow == old(shadow).(clock := clock, nextId := nextId)
    {
      hide Exec, Init, AuditFor;
      if fails {
        CatchUp();
        return false;
      }
      Take(Record(stagedRow.value.id));
      stagedAudit := Some(a);
      return true;
    }

    /** INSERT of one outbox row of the open transaction; it stays invisible until the commit. */
    method Enqueue(row: OutboxRow, fails: bool) returns (ok: bool)
      requires Traced() && Agrees() && stagedRow.Some? && stagedAudit.Some?
      requires
        var o := shadow.open[stagedRow.value.id];
        && o.todo != [] && row == RowFor(shadow, o)
        && clock == shadow.clock + (if o.todo[0].Fresh? then 1 else 0)
        && nextId == shadow.nextId + (if o.todo[0].Fresh? then 1 else 0)
      requires forall k :: 0 <= k < |outbox| ==> outbox[k].eventId != row.eventId
      modifies this
      ensures Valid()
      ensures ok == !fails
      ensures stagedRow == old(stagedRow) && stagedAudit == old(stagedAudit)
      ensures Unseen(old(shadow), shadow) && shadow.planned == old(shadow).planned
      ensures ok ==> shadow == DoEnqueue(old(shadow), stagedRow.value.id)
      ensures ok ==> trace == old(trace) + [Machine.Enqueue(stagedRow.value.id)]
      ensures clock >= old(clock) && nextId >= old(nextId)
      ensures !ok ==> shadow == old(shadow).(clock := clock, nextId := nextId)
    {
      hide Exec, Init, RowFor;
      if fails {
        CatchUp();
        return false;
      }
      Take(Machine.Enqueue(stagedRow.value.id));
      stagedEvents := stagedEvents + [|outbox|];
      outbox := outbox + [row];
      return true;
    }

    /** COMMIT: everything staged becomes visible at once, or nothing does. */
    method Commit(fails: bool) returns (ok: bool)
      requires Valid() && stagedRow.Some? && CanCommit(shadow, stagedRow.value.id)
      modifies this
      ensures Valid()
      ensures ok == !fails
      ensures stagedRow.None? && shadow.planned == old(shadow).planned
      ensures ok ==> shadow == DoCommit(old(shadow), old(stagedRow).value.id)
      ensures ok ==> incidents == old(incidents)[old(stagedRow).value.id := old(stagedRow).value]
      ensures ok ==> trace == old(trace) + [Machine.Commit(old(stagedRow).value.id)]
      ensures !ok ==> shadow == old(shadow).(open := map[]) && Unseen(old(shadow), shadow)
    {
      hide Exec, Init, UniqueExternal, Enabled, Apply, EnvelopesAt, StagedOk;
      if fails {
        Rollback();
        return false;
      }
      var row := stagedRow.value;
      CommitStep(shadow, row.id);
      Take(Machine.Commit(row.id));
      assert shadow.open == map[];
      incidents := incidents[row.id := row];
      audit := audit + [stagedAudit.value];
      visible := visible + Elements(stagedEvents);
      stagedRow, stagedAudit, stagedEvents := None, None, [];
      return true;
    }

    /** ROLLBACK: what was staged is dropped; outbox rows already inserted stay behind, dead. */
    method Rollback()
      requires Valid() && stagedRow.Some?
      modifies this
      ensures Valid() && stagedRow.None?
      ensures shadow == old(shadow).(open := map[]) && Unseen(old(shadow), shadow)
    {
      hide Exec, Init;
      var i := stagedRow.value.id;
      Take(Abort(i));
      stagedRow, stagedAudit, stagedEvents := None, None, [];
    }

    /** A denial is recorded in a transaction of its own. */
    method InsertDenial(a: AuditRow, ghost d: Action, fails: bool)
      requires Traced() && Agrees() && d.Deny?
      requires clock == shadow.clock + 1 && nextId == shadow.nextId + 1
      requires a == AuditRow(shadow.nextId, d.tenant, shadow.clock, d.who, d.denied, d.target, Refused,
                             RecordedCorrelation(d.correlation))
      modifies this
      ensures Valid() && stagedRow == old(stagedRow)
      ensures clock >= old(clock) && nextId >= old(nextId)
      ensures shadow == if fails then old(shadow).(clock := clock, nextId := nextId) else DoDeny(old(shadow), d)
    {
      hide Exec, Init;
      if fails {
        CatchUp();
      } else {
        Take(d);
        audit := audit + [a];
      }
    }
  }
}
