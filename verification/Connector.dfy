/** The reference connector: what it reads from an event, what it asks of the service, and how it is driven. */
module Connector {
  import opened Prelude
  import opened Lifecycle
  import opened Domain
  import opened Auth
  import opened Outbox
  import opened Machine
  import opened Tables
  import opened Serial
  import opened Requests
  import opened Database
  import opened Service
  import opened PatchAlgebra

  const ENRICH_TAG := "enriched-by-reference-connector"

  /** The connector's X-Principal-Id header, and the principal the server reads from it. */
  const PRINCIPAL_HEADER := "connector:reference-connector"
  const REFERENCE := Principal("connector", "reference-connector")

  lemma {:induction false} HeaderNamesReference()
    ensures ParsePrincipal("connector:reference-connector") == Ok(Principal("connector", "reference-connector"))
    ensures ParsePrincipal(PRINCIPAL_HEADER) == Ok(REFERENCE)
  {
    assert Render(REFERENCE) == "connector:reference-connector";
    ParseUndoesRender(REFERENCE);
  }

  // ---- the wire ----

  datatype Json = JNull | JNumber(n: int) | JText(text: string) | JList(items: seq<Json>)
                | JObject(fields: map<string, Json>)

  function StatusText(s: Status): string {
    match s
    case New => "new"
    case Triaged => "triaged"
    case InProgress => "in_progress"
    case Contained => "contained"
    case Resolved => "resolved"
    case Closed => "closed"
    case OtherStatus(text) => text
  }

  function SeverityText(s: Severity): string {
    match s
    case Low => "low"
    case Medium => "medium"
    case High => "high"
    case Critical => "critical"
    case OtherSeverity(text) => text
  }

  function Texts(ts: seq<string>): seq<Json> {
    seq(|ts|, k requires 0 <= k < |ts| => JText(ts[k]))
  }

  /** A nil slice is written as null. */
  function TagsJson(tags: Option<seq<string>>): Json {
    if tags.None? then JNull else JList(Texts(tags.value))
  }

  /** `out` has this member exactly when there is a value, and then with that value. */
  ghost predicate Member(out: map<string, Json>, key: string, value: Option<Json>) {
    (key in out <==> value.Some?) && (value.Some? ==> out[key] == value.value)
  }

  function TextJson(t: Option<string>): Option<Json> {
    if t.Some? then Some(JText(t.value)) else None
  }

  function NumberJson(n: Option<nat>): Option<Json> {
    if n.Some? then Some(JNumber(n.value)) else None
  }

  /** The members every snapshot has. */
  ghost predicate DescribesFixed(out: map<string, Json>, i: Incident) {
    && Member(out, "id", Some(JNumber(i.id)))
    && Member(out, "tenant_id", Some(JNumber(i.tenant)))
    && Member(out, "schema_version", Some(JNumber(i.schemaVersion)))
    && Member(out, "title", Some(JText(i.title)))
    && Member(out, "severity", Some(JText(SeverityText(i.severity))))
    && Member(out, "status", Some(JText(StatusText(i.status))))
    && Member(out, "tags", Some(TagsJson(i.tags)))
    && Member(out, "created_at", Some(JNumber(i.createdAt)))
    && Member(out, "updated_at", Some(JNumber(i.updatedAt)))
  }

  /** The members a nil field leaves out. */
  ghost predicate DescribesOptional(out: map<string, Json>, i: Incident) {
    && Member(out, "external_id", TextJson(i.externalId))
    && Member(out, "description", TextJson(i.description))
    && Member(out, "assignee_id", NumberJson(i.assignee))
    && Member(out, "source_connector_id", TextJson(i.sourceConnector))
    && Member(out, "attributes", if i.attributes.Some? then Some(AttributesObject(i.attributes.value)) else None)
    && Member(out, "closed_at", NumberJson(i.closedAt))
  }

  /** `out` is the snapshot of `i`, member by member. */
  ghost predicate Describes(out: map<string, Json>, i: Incident) {
    DescribesFixed(out, i) && DescribesOptional(out, i)
  }

  function AttributesObject(a: Attributes): Json {
    JObject(map k | k in a :: JText(a[k]))
  }

  /** The snapshot as a JSON object, filled in field by field. */
  method IncidentJson(i: Incident) returns (out: map<string, Json>)
    ensures Describes(out, i)
  {
    out := map["id" := JNumber(i.id), "tenant_id" := JNumber(i.tenant), "schema_version" := JNumber(i.schemaVersion),
               "title" := JText(i.title), "severity" := JText(SeverityText(i.severity)),
               "status" := JText(StatusText(i.status)), "tags" := TagsJson(i.tags),
               "created_at" := JNumber(i.createdAt), "updated_at" := JNumber(i.updatedAt)];
    out := AddFirstOptional(out, i);
    out := AddLastOptional(out, i);
  }

  /** external_id, description and assignee_id, where there is one. */
  method AddFirstOptional(given: map<string, Json>, i: Incident) returns (out: map<string, Json>)
    requires DescribesFixed(given, i) && given.Keys !! {"external_id", "description", "assignee_id"}
    ensures DescribesFixed(out, i)
    ensures Member(out, "external_id", TextJson(i.externalId))
    ensures Member(out, "description", TextJson(i.description))
    ensures Member(out, "assignee_id", NumberJson(i.assignee))
    ensures forall k :: k in {"source_connector_id", "attributes", "closed_at"} ==> (k in out <==> k in given)
  {
    out := given;
    if i.externalId.Some? {
      out := out["external_id" := JText(i.externalId.value)];
    }
    if i.description.Some? {
      out := out["description" := JText(i.description.value)];
    }
    if i.assignee.Some? {
      out := out["assignee_id" := JNumber(i.assignee.value)];
    }
  }

  /** source_connector_id, attributes and closed_at, where there is one. */
  method AddLastOptional(given: map<string, Json>, i: Incident) returns (out: map<string, Json>)
    requires DescribesFixed(given, i) && given.Keys !! {"source_connector_id", "attributes", "closed_at"}
    requires Member(given, "external_id", TextJson(i.externalId))
    requires Member(given, "description", TextJson(i.description))
    requires Member(given, "assignee_id", NumberJson(i.assignee))
    ensures Describes(out, i)
  {
    out := given;
    if i.sourceConnector.Some? {
      out := out["source_connector_id" := JText(i.sourceConnector.value)];
    }
    if i.attributes.Some? {
      out := out["attributes" := AttributesObject(i.attributes.value)];
    }
    if i.closedAt.Some? {
      out := out["closed_at" := JNumber(i.closedAt.value)];
    }
  }

  // ---- reading a snapshot back ----

  function StatusFrom(text: string): Status {
    if text == "new" then New
    else if text == "triaged" then Triaged
    else if text == "in_progress" then InProgress
    else if text == "contained" then Contained
    else if text == "resolved" then Resolved
    else if text == "closed" then Closed
    else OtherStatus(text)
  }

  function SeverityFrom(text: string): Severity {
    if text == "low" then Low
    else if text == "medium" then Medium
    else if text == "high" then High
    else if text == "critical" then Critical
    else OtherSeverity(text)
  }

  lemma {:induction false} TextsReadBack(s: Status, v: Severity)
    ensures s.IsValid() ==> StatusFrom(StatusText(s)) == s
    ensures v.IsValid() ==> SeverityFrom(SeverityText(v)) == v
  {
    assert |"new"| == 3 && |"triaged"| == 7 && |"in_progress"| == 11 && |"contained"| == 9 && |"resolved"| == 8
           && |"closed"| == 6;
    assert |"low"| == 3 && |"medium"| == 6 && |"high"| == 4 && |"critical"| == 8;
  }

  function NumberAt(out: map<string, Json>, key: string): Option<int> {
    if key in out && out[key].JNumber? then Some(out[key].n) else None
  }

  function TextAt(out: map<string, Json>, key: string): Option<string> {
    if key in out && out[key].JText? then Some(out[key].text) else None
  }

  function TagsAt(out: map<string, Json>): Option<seq<string>> {
    if "tags" in out && out["tags"].JList? then Some(TextItems(out["tags"].items)) else None
  }

  function AttributesAt(out: map<string, Json>): Option<Attributes> {
    if "attributes" in out && out["attributes"].JObject? then
      var fields := out["attributes"].fields;
      Some(map k | k in fields && fields[k].JText? :: fields[k].text)
    else None
  }

  /** Reading the object under the documented keys gives the snapshot, field by field. */
  predicate ReadsBack(out: map<string, Json>, i: Incident) {
    && NumberAt(out, "id") == Some(i.id) && NumberAt(out, "tenant_id") == Some(i.tenant)
    && NumberAt(out, "schema_version") == Some(i.schemaVersion)
    && TextAt(out, "title") == Some(i.title)
    && TextAt(out, "severity") == Some(SeverityText(i.severity)) && TextAt(out, "status") == Some(StatusText(i.status))
    && TagsAt(out) == i.tags
    && NumberAt(out, "created_at") == Some(i.createdAt) && NumberAt(out, "updated_at") == Some(i.updatedAt)
    && TextAt(out, "external_id") == i.externalId && TextAt(out, "description") == i.description
    && NumberAt(out, "assignee_id") == i.assignee
    && TextAt(out, "source_connector_id") == i.sourceConnector
    && AttributesAt(out) == i.attributes
    && NumberAt(out, "closed_at") == i.closedAt
  }

  lemma {:induction false} AttributesReadBack(out: map<string, Json>, i: Incident)
    requires Member(out, "attributes", if i.attributes.Some? then Some(AttributesObject(i.attributes.value)) else None)
    ensures AttributesAt(out) == i.attributes
  {
    if i.attributes.Some? {
      var a := i.attributes.value;
      assert AttributesObject(a).fields.Keys == a.Keys;
      assert AttributesAt(out).value == a;
    }
  }

  lemma {:induction false} TagsReadBack(out: map<string, Json>, i: Incident)
    requires Member(out, "tags", Some(TagsJson(i.tags)))
    ensures TagsAt(out) == i.tags
  {
    if i.tags.Some? {
      TextItemsOfTexts(i.tags.value);
    }
  }

  /** The wire form keeps every field: read back under its documented key, each one is what it was. */
  lemma {:induction false} SnapshotReadsBack(out: map<string, Json>, i: Incident)
    requires Describes(out, i)
    ensures ReadsBack(out, i)
  {
    hide TextItems, AttributesAt, TagsAt, AttributesObject, TagsJson;
    AttributesReadBack(out, i);
    TagsReadBack(out, i);
  }

  /** So it loses nothing: two valid snapshots with one JSON object are the same snapshot. */
  lemma {:induction false} WireKeepsSnapshot(out: map<string, Json>, i: Incident, j: Incident)
    requires Describes(out, i) && Describes(out, j)
    requires i.status.IsValid() && j.status.IsValid() && i.severity.IsValid() && j.severity.IsValid()
    ensures i == j
  {
    hide Describes, TextItems, AttributesAt, TagsAt, StatusText, SeverityText, StatusFrom, SeverityFrom;
    SnapshotReadsBack(out, i);
    SnapshotReadsBack(out, j);
    TextsReadBack(i.status, i.severity);
    TextsReadBack(j.status, j.severity);
  }

  // ---- reading the tags ----

  /** The text items of a JSON list; anything else is skipped. */
  function TextItems(items: seq<Json>): seq<string> {
    if items == [] then
      []
    else
      var n := |items| - 1;
      TextItems(items[..n]) + if items[n].JText? then [items[n].text] else []
  }

  /** payload.incident.tags, or nothing when the payload has another shape. */
  function TagsIn(payload: Json): seq<string> {
    if !(payload.JObject? && "incident" in payload.fields) then []
    else
      var inc := payload.fields["incident"];
      if inc.JObject? && "tags" in inc.fields && inc.fields["tags"].JList? then TextItems(inc.fields["tags"].items)
      else []
  }

  method PriorTags(payload: Json) returns (out: seq<string>)
    ensures out == TagsIn(payload)
  {
    if !payload.JObject? || "incident" !in payload.fields {
      return [];
    }
    var inc := payload.fields["incident"];
    if !inc.JObject? || "tags" !in inc.fields || !inc.fields["tags"].JList? {
      return [];
    }
    var raw := inc.fields["tags"].items;
    out := [];
    for k := 0 to |raw|
      invariant out == TextItems(raw[..k])
    {
      assert raw[..k + 1][..k] == raw[..k];
      if raw[k].JText? {
        out := out + [raw[k].text];
      }
    }
    assert raw[..|raw|] == raw;
  }

  method Contains(ss: seq<string>, s: string) returns (found: bool)
    ensures found <==> s in ss
  {
    for k := 0 to |ss|
      invariant s !in ss[..k]
    {
      if ss[k] == s {
        return true;
      }
    }
    return false;
  }

  lemma {:induction false} TextItemsOfTexts(ts: seq<string>)
    ensures TextItems(Texts(ts)) == ts
  {
    if ts != [] {
      var n := |ts| - 1;
      TextItemsOfTexts(ts[..n]);
      assert Texts(ts)[..n] == Texts(ts[..n]);
      assert ts == ts[..n] + [ts[n]];
    }
  }

  /** The connector reads back exactly the tags the incident was created with. */
  lemma {:induction false} TagsSurviveTheWire(out: map<string, Json>, i: Incident)
    requires Describes(out, i)
    ensures TagsIn(JObject(map["incident" := JObject(out)])) == i.tags.GetOr([])
  {
    var payload := JObject(map["incident" := JObject(out)]);
    assert payload.fields["incident"] == JObject(out);
    assert Member(out, "tags", Some(TagsJson(i.tags)));
    if i.tags.Some? {
      TextItemsOfTexts(i.tags.value);
    }
  }

  /** The tags the connector asks for: all the old ones in order, and its own once. */
  function Enriched(ts: seq<string>): seq<string> {
    if ENRICH_TAG in ts then ts else ts + [ENRICH_TAG]
  }

  /** A text is kept, anything else skipped. */
  lemma {:induction false} TextItemsOfOne(j: Json)
    ensures TextItems([j]) == if j.JText? then [j.text] else []
  {
    assert [j][..0] == [];
  }

  /** And the order is kept. */
  lemma {:induction false} TextItemsConcat(a: seq<Json>, b: seq<Json>)
    ensures TextItems(a + b) == TextItems(a) + TextItems(b)
  {
    if b == [] {
      assert a + b == a;
    } else {
      var n := |b| - 1;
      TextItemsConcat(a, b[..n]);
      assert (a + b)[..|a + b| - 1] == a + b[..n];
    }
  }

  /** Only created events of others are acted on. */
  predicate ActsOn(e: Envelope) {
    e.payload.Created? && e.actor != REFERENCE
  }

  /** The Patch the connector asks for. */
  function HandleCall(e: Envelope, tenant: Uuid): PatchCall
    requires e.payload.Created?
  {
    PatchCall(REFERENCE, tenant, e.entity,
              PatchInput(None, None, None, None, None, None, Some(Enriched(e.payload.snapshot.tags.GetOr([])))),
              true, e.correlation)
  }

  /** The row such a Patch leaves behind. */
  ghost predicate Retagged(before: IncidentRow, after: IncidentRow, tags: seq<string>) {
    after == before.(tags := Some(tags), updatedAt := after.updatedAt)
  }

  /**
   * The connector's Patch succeeds exactly on incidents of its tenant, and writes exactly
   * when the row's tags are not yet the enriched ones; then it changes the tags, updated_at and
   * nothing else, with one updated event.
   */
  lemma {:induction false} HandleCallEffect(s: Sys, e: Envelope, tenant: Uuid)
    requires e.payload.Created?
    ensures
      var c := HandleCall(e, tenant);
      var found := e.entity in s.incidents && s.incidents[e.entity].tenant == tenant;
      && (PatchPlan(s, c).Ok? <==> found)
      && (Writes(s, c) <==>
            found && s.incidents[e.entity].tags.GetOr([]) != Enriched(e.payload.snapshot.tags.GetOr([])))
      && (Writes(s, c) ==>
            var plan := PatchPlan(s, c).value;
            && !plan.StatusChanged() && plan.changed == [TagsField]
            && Retagged(s.incidents[e.entity], ApplyUpdate(s.incidents[e.entity], plan.upd),
                        Enriched(e.payload.snapshot.tags.GetOr([]))))
  {
    hide CanTransition, Enriched;
    var c := HandleCall(e, tenant);
    if e.entity in s.incidents && s.incidents[e.entity].tenant == tenant {
      var prior := FromRow(s.incidents[e.entity]);
      assert prior.tags == s.incidents[e.entity].tags;
      assert PatchRefusal(prior, c.input, true) == None;
    }
  }

  /** The machine steps of handling one message without faults. */
  ghost function HandleActions(s: Sys, e: Envelope, tenant: Uuid): seq<Action> {
    if ActsOn(e) && Writes(s, HandleCall(e, tenant)) then PatchActions(s, HandleCall(e, tenant)) else []
  }

  /**
   * Idempotence: after a created message has been handled, handling it again does nothing
   * as long as nobody edited the tags since, whatever else happened to the incident.
   */
  lemma {:induction false} SecondHandlingDoesNothing(s: Sys, t: Sys, u: Sys, e: Envelope, tenant: Uuid)
    requires TablesOk(s) && Quiet(s) && ActsOn(e)
    requires Exec(s, HandleActions(s, e, tenant)) == Some(t)
    requires e.entity in u.incidents ==>
               && e.entity in t.incidents
               && u.incidents[e.entity].tags == t.incidents[e.entity].tags
               && u.incidents[e.entity].tenant == t.incidents[e.entity].tenant
    ensures HandleActions(u, e, tenant) == []
  {
    hide TablesOk, Enabled, Apply, PatchActions, PatchPlan, Writes, Enriched;
    HandleCallEffect(s, e, tenant);
    HandleCallEffect(u, e, tenant);
    if Writes(s, HandleCall(e, tenant)) {
      PatchAlone(s, HandleCall(e, tenant));
    }
  }

  // ---- the connector and its subscription ----

  class ReferenceConnector {
    const service: Service
    const tenant: Uuid

    constructor (service: Service, tenant: Uuid)
      ensures this.service == service && this.tenant == tenant
    {
      this.service := service;
      this.tenant := tenant;
    }

    /** Handles one message; an error is what the PATCH answered. */
    method HandleEnvelope(e: Envelope, allowed: bool, faults: set<Call>) returns (ok: bool)
      requires service.store.Valid() && Quiet(service.store.shadow) && service.store.stagedRow.None?
      modifies service.store
      ensures service.store.Valid() && Quiet(service.store.shadow) && service.store.stagedRow.None?
      ensures !(e.payload.Created? && e.actor != Principal("connector", "reference-connector")) ==>
                ok && service.store.shadow == old(service.store.shadow) && service.store.trace == old(service.store.trace)
      ensures ActsOn(e) <==> e.payload.Created? && e.actor != Principal("connector", "reference-connector")
      ensures ok <==> !ActsOn(e) || Answers(old(service.store.shadow), e, tenant, allowed, faults)
      ensures HandledBy(old(service.store.shadow), service.store.shadow, e, tenant, allowed, ok)
      ensures ActsOn(e) && ok && Writes(old(service.store.shadow), HandleCall(e, tenant)) ==>
                service.store.trace == old(service.store.trace) + HandleActions(old(service.store.shadow), e, tenant)
    {
      hide Store.Valid, PatchedAlone, PatchTold, PatchActions, Unseen, Writes, NothingWritten, EnrichTold,
           Service.Unhindered, InputApplied;
      if !e.payload.Created? {
        return true;
      }
      if e.actor == REFERENCE {
        return true;
      }
      ghost var s := service.store.shadow;
      var snapshot := IncidentJson(e.payload.snapshot);
      var prior := PriorTags(JObject(map["incident" := JObject(snapshot)]));
      TagsSurviveTheWire(snapshot, e.payload.snapshot);
      var next := prior;
      var tagged := Contains(next, ENRICH_TAG);
      if !tagged {
        next := next + [ENRICH_TAG];
      }
      assert next == Enriched(e.payload.snapshot.tags.GetOr([]));
      IdsOf(service);
      ok := PatchIncidentTags(e.entity, next, e.correlation, allowed, faults);
      if ok && Writes(s, HandleCall(e, tenant)) {
        PatchedIsTold(s, service.store.shadow, HandleCall(e, tenant));
        ToldEnriches(s, service.store.shadow, e, tenant);
      }
      HandleCallEffect(s, e, tenant);
    }

    /** The PATCH request with the new tags, forwarding the correlation id. */
    method PatchIncidentTags(id: Uuid, tags: seq<string>, correlation: Uuid, allowed: bool, faults: set<Call>)
      returns (ok: bool)
      requires service.store.Valid() && Quiet(service.store.shadow) && service.store.stagedRow.None?
      modifies service.store
      ensures service.store.Valid() && Quiet(service.store.shadow) && service.store.stagedRow.None?
      ensures
        var c := PatchCall(REFERENCE, tenant, id, PatchInput(None, None, None, None, None, None, Some(tags)), true,
                           correlation);
        var s := old(service.store.shadow);
        && (ok <==> allowed && PatchFound(s.incidents, c) && Service.Unhindered(s.incidents, c, faults))
        && (ok && Writes(s, c) ==> PatchedAlone(s, service.store.shadow, c)
                                   && service.store.trace == old(service.store.trace) + PatchActions(s, c))
        && (ok && !Writes(s, c) ==> Unseen(s, service.store.shadow) && service.store.shadow.outbox == s.outbox)
        && (!ok ==> NothingWritten(s, service.store.shadow, allowed))
    {
      hide Store.Traced, PatchedAlone, PatchPlan, PatchActions, Unseen, Writes, NothingWritten, PatchTold, Shows,
           Service.Unhindered, NamesSomething, DenialTold, PatchError;
      var req := PatchRequest(Absent, Absent, Absent, Absent, Absent, Absent, Given(tags),
                              if correlation != NIL_UUID then Given(correlation) else Absent);
      var decoded, forwarded := DecodePatch(req);
      HeaderNamesReference();
      var who := ParsePrincipal(PRINCIPAL_HEADER);
      var c := PatchCall(who.value, tenant, id, decoded.value, true, forwarded);
      PatchPlanExactly(service.store.shadow, c);
      var r := service.Patch(c, allowed, faults);
      ok := r.Ok?;
    }

    /**
     * The subscription loop: each delivery that decodes is handled once, in order; malformed
     * ones are dropped, and so are the handler's errors. `states` are the states in between.
     */
    method Subscribe(deliveries: seq<Body>, allowed: bool, faults: seq<set<Call>>) returns (ghost states: seq<Sys>)
      requires service.store.Valid() && Quiet(service.store.shadow) && service.store.stagedRow.None?
      requires |faults| == |deliveries|
      modifies service.store
      ensures service.store.Valid() && Quiet(service.store.shadow) && service.store.stagedRow.None?
      ensures |states| == |deliveries| + 1
      ensures states[0] == old(service.store.shadow) && states[|deliveries|] == service.store.shadow
      ensures forall k :: 0 <= k < |deliveries| ==>
                DeliveredOnce(states[k], states[k + 1], deliveries[k], tenant, allowed, faults[k])
    {
      hide Store.Valid, HandledBy, NothingWritten, Answers, ActsOn;
      states := [service.store.shadow];
      for n := 0 to |deliveries|
        invariant service.store.Valid() && Quiet(service.store.shadow) && service.store.stagedRow.None?
        invariant |states| == n + 1 && states[0] == old(service.store.shadow) && states[n] == service.store.shadow
        invariant forall k :: 0 <= k < n ==>
                    DeliveredOnce(states[k], states[k + 1], deliveries[k], tenant, allowed, faults[k])
      {
        if deliveries[n].WellFormed? {
          var ok := HandleEnvelope(deliveries[n].env, allowed, faults[n]);
          assert HandledBy(states[n], service.store.shadow, deliveries[n].env, tenant, allowed, ok);
        }
        assert DeliveredOnce(states[n], service.store.shadow, deliveries[n], tenant, allowed, faults[n]);
        states := states + [service.store.shadow];
      }
    }
  }

  lemma {:induction false} IdsOf(service: Service)
    requires service.store.Valid()
    ensures TablesOk(service.store.shadow)
  {
    service.IdsOfStore();
  }

  /** The tags the connector asks for. */
  function TagsWanted(tags: Option<seq<string>>): seq<string> {
    var given := tags.GetOr([]);
    if "enriched-by-reference-connector" in given then given else given + ["enriched-by-reference-connector"]
  }

  /** The incident is there, in the connector's tenant. */
  predicate Reaches(incidents: map<Uuid, IncidentRow>, e: Envelope, tenant: Uuid) {
    e.entity in incidents && incidents[e.entity].tenant == tenant
  }

  /** Is the handling of this message answered with success? */
  ghost predicate Answers(s: Sys, e: Envelope, tenant: Uuid, allowed: bool, faults: set<Call>)
    requires e.payload.Created?
  {
    allowed && Reaches(s.incidents, e, tenant) && Service.Unhindered(s.incidents, HandleCall(e, tenant), faults)
  }

  /**
   * The incident is tagged: its tags are the wanted ones, updated_at moves, and nothing else. One updated event
   * and one audit row say so, in the connector's name and under the correlation id of the message.
   */
  ghost predicate EnrichTold(s: Sys, t: Sys, e: Envelope, tenant: Uuid)
    requires e.payload.Created?
  {
    var i, n := e.entity, |s.outbox|;
    && i in s.incidents && i in t.incidents && s.incidents[i].tenant == tenant
    && t.incidents == s.incidents[i := t.incidents[i]]
    && t.incidents[i].tags.GetOr([]) == TagsWanted(e.payload.snapshot.tags)
    && t.incidents[i] == s.incidents[i].(tags := t.incidents[i].tags, updatedAt := t.incidents[i].updatedAt)
    && |t.outbox| == n + 1 && s.outbox <= t.outbox && n in t.visible
    && t.outbox[n].body.WellFormed? && t.outbox[n].body.env.payload.Updated?
    && Shows(t.outbox[n].body.env.payload.snapshot, t.incidents[i])
    && t.outbox[n].body.env.entity == i && t.outbox[n].body.env.tenant == tenant
    && t.outbox[n].body.env.actor == Principal("connector", "reference-connector")
    && (e.correlation != NIL_UUID ==> t.outbox[n].body.env.correlation == e.correlation)
    && |t.audit| == |s.audit| + 1 && s.audit <= t.audit
    && t.audit[|s.audit|].action == UpdateAction && t.audit[|s.audit|].result == Success
    && t.audit[|s.audit|].target == Some(i)
    && t.audit[|s.audit|].actor == Principal("connector", "reference-connector")
    && (e.correlation != NIL_UUID ==> t.audit[|s.audit|].correlation == Some(e.correlation))
  }

  /** The link the forwarded id is for: the updated event of a handled created message carries that message's correlation id. */
  lemma {:induction false} ToldEnriches(s: Sys, t: Sys, e: Envelope, tenant: Uuid)
    requires e.payload.Created? && Reaches(s.incidents, e, tenant)
    requires PatchTold(s, t, HandleCall(e, tenant))
    ensures EnrichTold(s, t, e, tenant)
  {
    hide Named, FieldPlace;
  }

  /** What handling one message does to the database. */
  ghost predicate HandledBy(s: Sys, t: Sys, e: Envelope, tenant: Uuid, allowed: bool, ok: bool) {
    if !ActsOn(e) then t == s
    else if !ok then NothingWritten(s, t, allowed)
    else
      && Reaches(s.incidents, e, tenant)
      && if s.incidents[e.entity].tags.GetOr([]) != TagsWanted(e.payload.snapshot.tags) then
           PatchedAlone(s, t, HandleCall(e, tenant)) && EnrichTold(s, t, e, tenant)
         else
           Unseen(s, t) && t.outbox == s.outbox
  }

  /** What one delivery does: a malformed one nothing, any other one handling, failed or not. */
  ghost predicate DeliveredOnce(s: Sys, t: Sys, d: Body, tenant: Uuid, allowed: bool, faults: set<Call>) {
    if d.Malformed? then t == s
    else HandledBy(s, t, d.env, tenant, allowed, !ActsOn(d.env) || Answers(s, d.env, tenant, allowed, faults))
  }
}
