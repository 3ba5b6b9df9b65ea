/** Laws of patches: the whole decoding pipeline, repetition, and merging. */
module PatchAlgebra {
  import opened Prelude
  import opened Lifecycle
  import opened Domain

  /** One member of the PATCH body: missing, null, or given. */
  datatype Supplied<+T> = Absent | Null | Given(value: T)

  /** The raw attributes member: an object, or any other JSON value. */
  datatype AttributesJson = ObjectJson(fields: Attributes) | OtherJson

  datatype PatchRequest = PatchRequest(
    title: Supplied<string>, description: Supplied<string>, severity: Supplied<Severity>,
    status: Supplied<Status>, assignee: Supplied<Uuid>, attributes: Supplied<AttributesJson>,
    tags: Supplied<seq<string>>, correlation: Supplied<Uuid>)

  /** An optional field decoded from JSON: null and missing both leave it nil. */
  function Optional<T>(s: Supplied<T>): Option<T> {
    if s.Given? then Some(s.value) else None
  }

  /** The HTTP handler's decoding, field by field. An Err is the 400 for attributes that are no object. */
  method DecodePatch(req: PatchRequest) returns (r: Result<PatchInput, Error>, correlation: Uuid)
    ensures r.Err? <==> req.attributes == Given(OtherJson)
    ensures r.Err? ==> r.error == InvalidInput
    ensures r.Ok? ==> r.value == Decoded(req)
    ensures r.Ok? ==> correlation == Optional(req.correlation).GetOr(NIL_UUID)
  {
    correlation := NIL_UUID;
    var patch := PatchInput(Optional(req.title), Optional(req.description), Optional(req.severity),
                            Optional(req.status), Optional(req.assignee), None, None);
    if req.tags.Given? {
      patch := patch.(tags := Some(req.tags.value));
    }
    if req.attributes.Given? {
      match req.attributes.value
      case OtherJson =>
        return Err(InvalidInput), correlation;
      case ObjectJson(fields) =>
        patch := patch.(attributes := Some(fields));
    }
    if req.correlation.Given? {
      correlation := req.correlation.value;
    }
    return Ok(patch), correlation;
  }

  function Decoded(req: PatchRequest): PatchInput
    requires req.attributes != Given(OtherJson)
  {
    PatchInput(Optional(req.title), Optional(req.description), Optional(req.severity), Optional(req.status),
               Optional(req.assignee),
               if req.attributes.Given? then Some(req.attributes.value.fields) else None,
               Optional(req.tags))
  }

  function Over<T>(s: Supplied<T>, current: T): T {
    if s.Given? then s.value else current
  }

  /** The plain reading of a PATCH body: every given member replaces its field, nothing else moves. */
  function Override(i: Incident, req: PatchRequest): Incident
    requires req.attributes != Given(OtherJson)
  {
    i.(title := Over(req.title, i.title),
       description := if req.description.Given? then Some(req.description.value) else i.description,
       severity := Over(req.severity, i.severity),
       status := Over(req.status, i.status),
       assignee := if req.assignee.Given? then Some(req.assignee.value) else i.assignee,
       attributes := if req.attributes.Given? then Some(req.attributes.value.fields) else i.attributes,
       tags := if req.tags.Given? then Some(req.tags.value) else i.tags)
  }

  /** The one case where the stored row is not the literal override: [] over nil tags is a no-op. */
  predicate ClearsNilTags(i: Incident, req: PatchRequest) {
    req.tags == Given([]) && i.tags == None
  }

  /**
   * Decoding, planning, the COALESCE/CASE update and reading back together are one
   * plain override of the given members. The stamps move only when some field was
   * listed, closed_at only when `closed` was given; [] over nil tags keeps nil.
   */
  lemma {:induction false} PipelineIsOverride(row: IncidentRow, req: PatchRequest, accepted: bool, t: Time, c: Time)
    requires req.attributes != Given(OtherJson)
    requires PatchRow(row, Decoded(req), accepted, t, c).Ok?
    ensures
      var before := FromRow(row);
      var after := FromRow(PatchRow(row, Decoded(req), accepted, t, c).value);
      var listed := ChangedFields(before, Decoded(req));
      after == Override(before, req).(
        tags := if ClearsNilTags(before, req) then None else Override(before, req).tags,
        updatedAt := if listed == [] then before.updatedAt else t,
        closedAt := if req.status == Given(Closed) then Some(c) else before.closedAt)
  {
    PatchRowExactly(row, Decoded(req), accepted, t, c);
  }

  /** May an incident in status `from` be told to be in status `to`? The statuses in order, one shortcut, two reopens. */
  predicate MayMove(from: Status, to: Status) {
    || from == to
    || (from, to) in {(New, Triaged), (Triaged, InProgress), (InProgress, Contained), (InProgress, Resolved),
                      (Contained, Resolved), (Resolved, Closed), (Resolved, InProgress), (Closed, InProgress)}
  }

  /**
   * A request is refused exactly for an unknown severity or status, a forbidden move, or refused
   * attributes; a forbidden move is reported only when severity and status are known, everything else is invalid input.
   */
  lemma {:induction false} PipelineRefusals(row: IncidentRow, req: PatchRequest, accepted: bool, t: Time, c: Time)
    requires req.attributes != Given(OtherJson)
    ensures
      var severityKnown := req.severity.Given? ==> req.severity.value in {Low, Medium, High, Critical};
      var statusKnown :=
        req.status.Given? ==> req.status.value in {New, Triaged, InProgress, Contained, Resolved, Closed};
      var moves := req.status.Given? ==> MayMove(row.status, req.status.value);
      var r := PatchRow(row, Decoded(req), accepted, t, c);
      && (r.Ok? <==> severityKnown && statusKnown && moves && (req.attributes.Given? ==> accepted))
      && (r.Err? ==> r.error == if severityKnown && statusKnown && !moves then InvalidTransition else InvalidInput)
  {
    if req.severity.Given? {
      assert req.severity.value.IsValid() <==> req.severity.value in {Low, Medium, High, Critical};
    }
    if req.status.Given? {
      assert req.status.value.IsValid()
        <==> req.status.value in {New, Triaged, InProgress, Contained, Resolved, Closed};
      MovesAreTransitions(row.status, req.status.value);
    }
    assert FromRow(row).status == row.status;
  }

  lemma {:induction false} MovesAreTransitions(from: Status, to: Status)
    ensures MayMove(from, to) <==> CanTransition(from, to)
  {
    LegalMoves(from, to);
  }

  /**
   * What an accepted request does to each field, one by one: a given member is written, a missing or null one
   * leaves the field alone; the identity of the incident never changes.
   */
  lemma {:induction false} PipelineFields(row: IncidentRow, req: PatchRequest, accepted: bool, t: Time, c: Time)
    requires req.attributes != Given(OtherJson)
    requires PatchRow(row, Decoded(req), accepted, t, c).Ok?
    ensures
      var after := PatchRow(row, Decoded(req), accepted, t, c).value;
      && after.title == (if req.title.Given? then req.title.value else row.title)
      && after.description == (if req.description.Given? then Some(req.description.value) else row.description)
      && after.severity == (if req.severity.Given? then req.severity.value else row.severity)
      && after.status == (if req.status.Given? then req.status.value else row.status)
      && after.assignee == (if req.assignee.Given? then Some(req.assignee.value) else row.assignee)
      && (req.attributes.Given? ==> after.attributes == Some(req.attributes.value.fields))
      && (!req.attributes.Given? ==> after.attributes == row.attributes)
      && after.tags.GetOr([]) == (if req.tags.Given? then req.tags.value else row.tags.GetOr([]))
      && (!req.tags.Given? ==> after.tags == row.tags)
      && after.closedAt == (if req.status == Given(Closed) then Some(c) else row.closedAt)
      && after.id == row.id && after.tenant == row.tenant && after.createdAt == row.createdAt
      && after.externalId == row.externalId && after.sourceConnector == row.sourceConnector
      && after.schemaVersion == row.schemaVersion
  {
    PatchRowExactly(row, Decoded(req), accepted, t, c);
  }

  /** A patch that succeeded once succeeds again and then moves nothing but the stamps. */
  lemma {:induction false} PatchTwice(row: IncidentRow, p: PatchInput, accepted: bool,
                                      t1: Time, c1: Time, t2: Time, c2: Time)
    requires PatchRow(row, p, accepted, t1, c1).Ok?
    ensures
      var once := PatchRow(row, p, accepted, t1, c1).value;
      var twice := PatchRow(once, p, accepted, t2, c2);
      && twice.Ok?
      && twice.value == once.(updatedAt := twice.value.updatedAt, closedAt := twice.value.closedAt)
      && twice.value.closedAt == (if p.status == Some(Closed) then Some(c2) else once.closedAt)
      && twice.value.updatedAt in {once.updatedAt, t2}
  {
    var once := PatchRow(row, p, accepted, t1, c1).value;
    PatchRowExactly(row, p, accepted, t1, c1);
    assert PatchRefusal(FromRow(once), p, accepted).None?;
    PatchRowExactly(once, p, accepted, t2, c2);
  }

  /** The single patch that asks for both; the second one wins where they meet. */
  function Merge(p: PatchInput, q: PatchInput): PatchInput {
    PatchInput(q.title.Else(p.title), q.description.Else(p.description), q.severity.Else(p.severity),
               q.status.Else(p.status), q.assignee.Else(p.assignee), q.attributes.Else(p.attributes),
               q.tags.Else(p.tags))
  }

  /** Equal rows up to the two stamps and nil versus empty tags. */
  ghost predicate SameContent(a: IncidentRow, b: IncidentRow) {
    && SameTags(a.tags, b.tags)
    && a.(tags := None, updatedAt := 0, closedAt := None) == b.(tags := None, updatedAt := 0, closedAt := None)
  }

  lemma {:induction false} MergeContent(r: IncidentRow, p: PatchInput, q: PatchInput,
                                        t1: Time, c1: Time, t2: Time, c2: Time, t: Time, c: Time)
    ensures SameContent(Patched(r, Merge(p, q), t, c), Patched(Patched(r, p, t1, c1), q, t2, c2))
    ensures p.status.None? || q.status.None? ==>
              (Patched(r, Merge(p, q), t, c).closedAt.Some? <==>
               Patched(Patched(r, p, t1, c1), q, t2, c2).closedAt.Some?)
  {
    assert Patched(r, p, t1, c1).tags.GetOr([]) == p.tags.GetOr(r.tags.GetOr([]));
  }

  /** When the merged patch of two accepted ones is accepted. */
  lemma {:induction false} MergeAccepted(before: Incident, between: Incident, p: PatchInput, q: PatchInput,
                                         ap: bool, aq: bool)
    requires PatchRefusal(before, p, ap).None? && PatchRefusal(between, q, aq).None?
    requires between.status == p.status.GetOr(before.status)
    ensures PatchRefusal(before, Merge(p, q), if q.attributes.Some? then aq else ap).None? <==>
            p.status.None? || q.status.None? || CanTransition(before.status, q.status.value)
  {
  }

  /**
   * Two successful patches in a row equal their merged patch. The merged patch is
   * refused only when both carry a status and the direct move is not allowed;
   * when at most one carries a status, it also agrees on whether closed_at is set.
   */
  lemma {:induction false} MergePatches(row: IncidentRow, p: PatchInput, q: PatchInput, ap: bool, aq: bool,
                                        t1: Time, c1: Time, t2: Time, c2: Time, t: Time, c: Time)
    requires PatchRow(row, p, ap, t1, c1).Ok?
    requires PatchRow(PatchRow(row, p, ap, t1, c1).value, q, aq, t2, c2).Ok?
    ensures
      var second := PatchRow(PatchRow(row, p, ap, t1, c1).value, q, aq, t2, c2).value;
      var merged := PatchRow(row, Merge(p, q), if q.attributes.Some? then aq else ap, t, c);
      && (merged.Ok? <==> p.status.None? || q.status.None? || CanTransition(row.status, q.status.value))
      && (merged.Ok? ==> SameContent(merged.value, second))
      && (merged.Ok? && (p.status.None? || q.status.None?) ==>
            (merged.value.closedAt.Some? <==> second.closedAt.Some?))
  {
    var first := PatchRow(row, p, ap, t1, c1).value;
    PatchRowExactly(row, p, ap, t1, c1);
    PatchRowExactly(first, q, aq, t2, c2);
    MergeAccepted(FromRow(row), FromRow(first), p, q, ap, aq);
    var verdict := if q.attributes.Some? then aq else ap;
    if PatchRow(row, Merge(p, q), verdict, t, c).Ok? {
      PatchRowExactly(row, Merge(p, q), verdict, t, c);
      MergeContent(row, p, q,
                   if ChangedFields(FromRow(row), p) == [] then row.updatedAt else t1, c1,
                   if ChangedFields(FromRow(first), q) == [] then first.updatedAt else t2, c2,
                   if ChangedFields(FromRow(row), Merge(p, q)) == [] then row.updatedAt else t, c);
    }
  }
}
