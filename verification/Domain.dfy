/** Incidents, their stored rows, partial updates, and how a patch is planned and applied. */
module Domain {
  import opened Prelude
  import opened Lifecycle

  /** Identifiers; 0 plays uuid.Nil. */
  type Uuid = nat

  const NIL_UUID: Uuid := 0

  /** Ticks of the one process clock, in the resolution the database stores. */
  type Time = nat

  /** A JSON object; member values are kept as opaque text. */
  type Attributes = map<string, string>

  const SCHEMA_VERSION := 1

  datatype Error = InvalidInput | InvalidTransition | NotFound | Denied | Storage

  /** The domain shape of an incident. */
  datatype Incident = Incident(
    id: Uuid, tenant: Uuid, schemaVersion: int, externalId: Option<string>, title: string,
    description: Option<string>, severity: Severity, status: Status, assignee: Option<Uuid>,
    sourceConnector: Option<string>, attributes: Option<Attributes>, tags: Option<seq<string>>,
    createdAt: Time, updatedAt: Time, closedAt: Option<Time>)

  /** A row of the incident table; attributes hold the stored JSONB object. */
  datatype IncidentRow = IncidentRow(
    id: Uuid, tenant: Uuid, schemaVersion: int, externalId: Option<string>, title: string,
    description: Option<string>, severity: Severity, status: Status, assignee: Option<Uuid>,
    sourceConnector: Option<string>, attributes: Option<Attributes>, tags: Option<seq<string>>,
    createdAt: Time, updatedAt: Time, closedAt: Option<Time>)

  datatype CreateInput = CreateInput(
    externalId: Option<string>, title: string, description: Option<string>, severity: Severity,
    assignee: Option<Uuid>, sourceConnector: Option<string>, attributes: Option<Attributes>,
    tags: Option<seq<string>>)

  /** None means "do not touch"; Some([]) and Some(map[]) clear. */
  datatype PatchInput = PatchInput(
    title: Option<string>, description: Option<string>, severity: Option<Severity>,
    status: Option<Status>, assignee: Option<Uuid>, attributes: Option<Attributes>,
    tags: Option<seq<string>>)

  /** The columns an UPDATE writes; None leaves the column alone. */
  datatype IncidentUpdate = IncidentUpdate(
    title: Option<string>, description: Option<string>, severity: Option<Severity>,
    status: Option<Status>, assignee: Option<Uuid>, attributes: Option<Attributes>,
    tags: Option<seq<string>>, closedAt: Option<Time>, updatedAt: Time)

  datatype Field = TitleField | DescriptionField | SeverityField | StatusField | AssigneeField
                 | AttributesField | TagsField

  /** What Patch computes before it writes; `status` records the status read and the status asked for. */
  datatype Plan = Plan(upd: IncidentUpdate, changed: seq<Field>, status: Option<Change>) {
    predicate StatusChanged() {
      status.Some? && status.value.from != status.value.to
    }
  }

  /** nil attributes are stored as the empty object. */
  function MarshalAttributes(attributes: Option<Attributes>): Attributes {
    attributes.GetOr(map[])
  }

  function ToRow(i: Incident, stored: Attributes): IncidentRow {
    IncidentRow(i.id, i.tenant, i.schemaVersion, i.externalId, i.title, i.description, i.severity,
                i.status, i.assignee, i.sourceConnector, Some(stored), i.tags,
                i.createdAt, i.updatedAt, i.closedAt)
  }

  function FromRow(r: IncidentRow): Incident {
    Incident(r.id, r.tenant, r.schemaVersion, r.externalId, r.title, r.description, r.severity,
             r.status, r.assignee, r.sourceConnector, r.attributes, r.tags,
             r.createdAt, r.updatedAt, r.closedAt)
  }

  /** A snapshot with nil attributes read as the stored empty object. */
  function Normal(i: Incident): Incident {
    i.(attributes := Some(MarshalAttributes(i.attributes)))
  }

  /** Storing an incident and reading it back normalises nil attributes and changes nothing else. */
  lemma {:induction false} StoreThenLoad(i: Incident)
    ensures FromRow(ToRow(i, MarshalAttributes(i.attributes))) == Normal(i)
    ensures Normal(i) == i.(attributes := Some(if i.attributes.Some? then i.attributes.value else map[]))
  {
    var r := ToRow(i, MarshalAttributes(i.attributes));
    assert FromRow(r).attributes == r.attributes;
  }

  /** Tag lists compared element by element; nil and empty are alike. */
  predicate SameTags(a: Option<seq<string>>, b: Option<seq<string>>) {
    a.GetOr([]) == b.GetOr([])
  }

  predicate ValidCreate(in_: CreateInput) {
    in_.title != "" && in_.severity.IsValid()
  }

  /** The incident Create builds. */
  function NewIncident(in_: CreateInput, id: Uuid, tenant: Uuid, now: Time): Incident {
    Incident(id, tenant, SCHEMA_VERSION, in_.externalId, in_.title, in_.description, in_.severity,
             New, in_.assignee, in_.sourceConnector, in_.attributes, in_.tags, now, now, None)
  }

  /** Why a patch is refused, checked in the order severity, status, transition, attributes. */
  function PatchRefusal(prior: Incident, p: PatchInput, accepted: bool): Option<Error> {
    if p.severity.Some? && !p.severity.value.IsValid() then Some(InvalidInput)
    else if p.status.Some? && !p.status.value.IsValid() then Some(InvalidInput)
    else if p.status.Some? && !CanTransition(prior.status, p.status.value) then Some(InvalidTransition)
    else if p.attributes.Some? && !accepted then Some(InvalidInput)
    else None
  }

  /** Appends `f` when it is to be listed. */
  function List(fields: seq<Field>, named: bool, f: Field): (r: seq<Field>)
    ensures forall g :: g in r <==> g in fields || (named && g == f)
  {
    if named then fields + [f] else fields
  }

  predicate TitleDiffers(prior: Incident, p: PatchInput) {
    p.title.Some? && p.title.value != prior.title
  }

  predicate TagsDiffer(prior: Incident, p: PatchInput) {
    p.tags.Some? && !SameTags(p.tags, prior.tags)
  }

  /** Title and tags are listed only when they differ; every other supplied field is always listed. */
  function ChangedFields(prior: Incident, p: PatchInput): seq<Field> {
    var f1 := List([], TitleDiffers(prior, p), TitleField);
    var f2 := List(f1, p.description.Some?, DescriptionField);
    var f3 := List(f2, p.severity.Some?, SeverityField);
    var f4 := List(f3, p.status.Some?, StatusField);
    var f5 := List(f4, p.assignee.Some?, AssigneeField);
    var f6 := List(f5, p.attributes.Some?, AttributesField);
    List(f6, TagsDiffer(prior, p), TagsField)
  }

  /** The UPDATE a patch asks for; re-asserting `closed` stamps closed_at again. */
  function UpdateFor(prior: Incident, p: PatchInput, updatedAt: Time, closedAt: Time): IncidentUpdate {
    IncidentUpdate(
      if TitleDiffers(prior, p) then p.title else None,
      p.description, p.severity, p.status, p.assignee, p.attributes,
      if TagsDiffer(prior, p) then p.tags else None,
      if p.status == Some(Closed) then Some(closedAt) else None,
      updatedAt)
  }

  /** `accepted` is the schema registry's verdict on the supplied attributes. */
  function PlanPatch(prior: Incident, p: PatchInput, accepted: bool, updatedAt: Time, closedAt: Time)
    : Result<Plan, Error>
  {
    match PatchRefusal(prior, p, accepted)
    case Some(e) => Err(e)
    case None =>
      Ok(Plan(UpdateFor(prior, p, updatedAt, closedAt), ChangedFields(prior, p),
              if p.status.Some? then Some(Change(prior.status, p.status.value)) else None))
  }

  /** The COALESCE/CASE update of one row. */
  function ApplyUpdate(r: IncidentRow, u: IncidentUpdate): IncidentRow {
    r.(title := u.title.GetOr(r.title),
       description := u.description.Else(r.description),
       severity := u.severity.GetOr(r.severity),
       status := u.status.GetOr(r.status),
       assignee := u.assignee.Else(r.assignee),
       tags := u.tags.Else(r.tags),
       attributes := u.attributes.Else(r.attributes),
       closedAt := u.closedAt.Else(r.closedAt),
       updatedAt := u.updatedAt)
  }

  /** The effect of one patch on a row nobody else touches. */
  function PatchRow(r: IncidentRow, p: PatchInput, accepted: bool, updatedAt: Time, closedAt: Time)
    : Result<IncidentRow, Error>
  {
    match PlanPatch(FromRow(r), p, accepted, updatedAt, closedAt)
    case Err(e) => Err(e)
    case Ok(plan) => if plan.changed == [] then Ok(r) else Ok(ApplyUpdate(r, plan.upd))
  }

  /** What holds of every plan, whatever row it was computed from. */
  ghost predicate PlanOk(plan: Plan) {
    && plan.changed != []
    && (plan.upd.title.Some? ==> TitleField in plan.changed)
    && (plan.upd.description.Some? ==> DescriptionField in plan.changed)
    && (plan.upd.severity.Some? ==> SeverityField in plan.changed)
    && (plan.upd.status.Some? <==> StatusField in plan.changed)
    && (plan.upd.assignee.Some? ==> AssigneeField in plan.changed)
    && (plan.upd.attributes.Some? ==> AttributesField in plan.changed)
    && (plan.upd.tags.Some? ==> TagsField in plan.changed)
    && (plan.upd.closedAt.Some? <==> plan.upd.status == Some(Closed))
    && (plan.status.Some? <==> plan.upd.status.Some?)
    && (plan.status.Some? ==>
          && plan.status.value.to == plan.upd.status.value
          && plan.status.value.to.IsValid()
          && CanTransition(plan.status.value.from, plan.status.value.to))
  }

  /** `next` differs from `prev` only in the listed fields, updated_at and, when status is listed, closed_at. */
  ghost predicate Frame(prev: Incident, next: Incident, changed: seq<Field>) {
    && next.id == prev.id
    && next.tenant == prev.tenant
    && next.schemaVersion == prev.schemaVersion
    && next.externalId == prev.externalId
    && next.sourceConnector == prev.sourceConnector
    && next.createdAt == prev.createdAt
    && (TitleField !in changed ==> next.title == prev.title)
    && (DescriptionField !in changed ==> next.description == prev.description)
    && (SeverityField !in changed ==> next.severity == prev.severity)
    && (StatusField !in changed ==> next.status == prev.status && next.closedAt == prev.closedAt)
    && (AssigneeField !in changed ==> next.assignee == prev.assignee)
    && (AttributesField !in changed ==> next.attributes == prev.attributes)
    && (TagsField !in changed ==> next.tags == prev.tags)
  }

  lemma {:induction false} PlansAreOk(prior: Incident, p: PatchInput, accepted: bool, t: Time, c: Time)
    requires PlanPatch(prior, p, accepted, t, c).Ok?
    requires PlanPatch(prior, p, accepted, t, c).value.changed != []
    ensures PlanOk(PlanPatch(prior, p, accepted, t, c).value)
  {
    ChangedFieldsMembers(prior, p);
  }

  /** Exactly which fields a patch lists. */
  lemma ChangedFieldsMembers(prior: Incident, p: PatchInput)
    ensures TitleField in ChangedFields(prior, p) <==> p.title.Some? && p.title.value != prior.title
    ensures DescriptionField in ChangedFields(prior, p) <==> p.description.Some?
    ensures SeverityField in ChangedFields(prior, p) <==> p.severity.Some?
    ensures StatusField in ChangedFields(prior, p) <==> p.status.Some?
    ensures AssigneeField in ChangedFields(prior, p) <==> p.assignee.Some?
    ensures AttributesField in ChangedFields(prior, p) <==> p.attributes.Some?
    ensures TagsField in ChangedFields(prior, p) <==> p.tags.Some? && p.tags.value != prior.tags.GetOr([])
  {
  }

  /** Place of a field in changed_fields. */
  function FieldPlace(f: Field): nat {
    match f
    case TitleField => 0
    case DescriptionField => 1
    case SeverityField => 2
    case StatusField => 3
    case AssigneeField => 4
    case AttributesField => 5
    case TagsField => 6
  }

  ghost predicate Placed(fields: seq<Field>, below: nat) {
    && (forall x :: 0 <= x < |fields| ==> FieldPlace(fields[x]) < below)
    && forall x, y :: 0 <= x < y < |fields| ==> FieldPlace(fields[x]) < FieldPlace(fields[y])
  }

  lemma {:induction false} ListPlaced(fields: seq<Field>, named: bool, f: Field)
    requires Placed(fields, FieldPlace(f))
    ensures Placed(List(fields, named, f), FieldPlace(f) + 1)
  {
  }

  /** changed_fields names each field at most once, in one fixed order. */
  lemma {:induction false} ChangedFieldsInOrder(prior: Incident, p: PatchInput)
    ensures
      var fields := ChangedFields(prior, p);
      forall x, y :: 0 <= x < y < |fields| ==> FieldPlace(fields[x]) < FieldPlace(fields[y])
  {
    hide List, Placed, TitleDiffers, TagsDiffer;
    NonePlaced();
    var f1 := List([], TitleDiffers(prior, p), TitleField);
    ListPlaced([], TitleDiffers(prior, p), TitleField);
    var f2 := List(f1, p.description.Some?, DescriptionField);
    ListPlaced(f1, p.description.Some?, DescriptionField);
    var f3 := List(f2, p.severity.Some?, SeverityField);
    ListPlaced(f2, p.severity.Some?, SeverityField);
    var f4 := List(f3, p.status.Some?, StatusField);
    ListPlaced(f3, p.status.Some?, StatusField);
    var f5 := List(f4, p.assignee.Some?, AssigneeField);
    ListPlaced(f4, p.assignee.Some?, AssigneeField);
    var f6 := List(f5, p.attributes.Some?, AttributesField);
    ListPlaced(f5, p.attributes.Some?, AttributesField);
    ListPlaced(f6, TagsDiffer(prior, p), TagsField);
    PlacedInOrder(ChangedFields(prior, p), 7);
  }

  lemma {:induction false} NonePlaced()
    ensures Placed([], 0)
  {
  }

  lemma {:induction false} PlacedInOrder(fields: seq<Field>, below: nat)
    requires Placed(fields, below)
    ensures forall x, y :: 0 <= x < y < |fields| ==> FieldPlace(fields[x]) < FieldPlace(fields[y])
  {
  }

  /** The row with every supplied column written; equal tags count as not supplied. */
  function Patched(r: IncidentRow, p: PatchInput, updatedAt: Time, closedAt: Time): IncidentRow {
    r.(title := p.title.GetOr(r.title),
       description := p.description.Else(r.description),
       severity := p.severity.GetOr(r.severity),
       status := p.status.GetOr(r.status),
       assignee := p.assignee.Else(r.assignee),
       attributes := p.attributes.Else(r.attributes),
       tags := if p.tags.Some? && !SameTags(p.tags, r.tags) then p.tags else r.tags,
       closedAt := if p.status == Some(Closed) then Some(closedAt) else r.closedAt,
       updatedAt := updatedAt)
  }

  /** The row one accepted patch leaves; with nothing listed even updated_at stays. */
  lemma {:induction false} PatchRowExactly(r: IncidentRow, p: PatchInput, accepted: bool, t: Time, c: Time)
    requires PatchRow(r, p, accepted, t, c).Ok?
    ensures PatchRow(r, p, accepted, t, c).value ==
            Patched(r, p, if ChangedFields(FromRow(r), p) == [] then r.updatedAt else t, c)
  {
    var i := FromRow(r);
    assert i.title == r.title && i.tags == r.tags;
    ChangedFieldsMembers(i, p);
    var listed := ChangedFields(i, p);
    if listed == [] {
      assert forall f: Field :: f !in listed;
      assert p.title.GetOr(r.title) == r.title;
      assert p.description.None? && p.severity.None? && p.status.None? && p.assignee.None? && p.attributes.None?;
    } else {
      assert PatchRow(r, p, accepted, t, c).value == ApplyUpdate(r, UpdateFor(i, p, t, c));
    }
  }

  /** An update changes no more than its plan lists, on whatever row it lands. */
  lemma {:induction false} UpdatesStayInFrame(r: IncidentRow, plan: Plan)
    requires PlanOk(plan)
    ensures Frame(FromRow(r), FromRow(ApplyUpdate(r, plan.upd)), plan.changed)
  {
    var r' := ApplyUpdate(r, plan.upd);
    assert FromRow(r').id == r.id && FromRow(r').title == r'.title;
  }
}
