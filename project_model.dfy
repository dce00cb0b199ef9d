/** The scaffold-project record and the field constraints its request models
    enforce: length bounds, the status enumeration, and the end-date check
    that only the create model carries. */
module ProjectModel {
  import opened Common

  datatype ProjectStatus = Draft | Active | Completed | Archived

  /** The wire value of a status. */
  function StatusValue(s: ProjectStatus): string
  {
    match s
    case Draft => "draft"
    case Active => "active"
    case Completed => "completed"
    case Archived => "archived"
  }

  /** Parses a wire value; only the four status values are accepted. */
  function ParseStatus(v: string): (r: Option<ProjectStatus>)
    ensures r.Some? <==> v in {"draft", "active", "completed", "archived"}
    ensures r.Some? ==> StatusValue(r.value) == v
  {
    if v == "draft" then Some(Draft)
    else if v == "active" then Some(Active)
    else if v == "completed" then Some(Completed)
    else if v == "archived" then Some(Archived)
    else None
  }

  /** Parsing and printing a status are inverse to each other, both ways. */
  lemma {:induction false} StatusRoundTrip(s: ProjectStatus, v: string)
    ensures ParseStatus(StatusValue(s)) == Some(s)
    ensures ParseStatus(v) == Some(s) ==> StatusValue(s) == v
  {
    match s
    case Draft =>
    case Active =>
    case Completed =>
    case Archived =>
  }

  const NameMinLength: nat := 1
  const NameMaxLength: nat := 200
  const DescriptionMaxLength: nat := 1000
  const CustomerNameMaxLength: nat := 100
  const SiteAddressMaxLength: nat := 300
  const NewNameMaxLength: nat := 200

  /** Calendar dates as day numbers: only their order is used. */
  type Date = int

  /** The fields every stored project has (ProjectBase). */
  datatype ProjectFields = ProjectFields(
    name: string,
    description: Option<string>,
    status: ProjectStatus,
    customerName: Option<string>,
    siteAddress: Option<string>,
    startDate: Option<Date>,
    endDate: Option<Date>,
    metadata: Option<Json>)

  /** The columns every request model inherits from the base record model
      (id, created_at, updated_at). A client may send them; None stands for
      one not sent or, in an update, sent as null. */
  datatype RowColumns = RowColumns(id: Option<nat>, createdAt: Option<Timestamp>, updatedAt: Option<Timestamp>)

  const NoRowColumns: RowColumns := RowColumns(None, None, None)

  /** A create request as received; None stands for a field not sent. */
  datatype ProjectInput = ProjectInput(
    name: string,
    description: Option<string>,
    status: Option<string>,
    customerName: Option<string>,
    siteAddress: Option<string>,
    startDate: Option<Date>,
    endDate: Option<Date>,
    metadata: Option<Json>,
    columns: RowColumns)

  /** A validated create request: the project's fields and the inherited
      columns, which no validator looks at. */
  datatype ProjectCreate = ProjectCreate(fields: ProjectFields, columns: RowColumns)

  /** An update request as received; None stands for a field not sent or sent as null. */
  datatype ProjectUpdateInput = ProjectUpdateInput(
    name: Option<string>,
    description: Option<string>,
    status: Option<string>,
    customerName: Option<string>,
    siteAddress: Option<string>,
    startDate: Option<Date>,
    endDate: Option<Date>,
    metadata: Option<Json>,
    columns: RowColumns)

  /** A validated update: the fields to overwrite, None meaning "leave as is". */
  datatype ProjectPatch = ProjectPatch(
    name: Option<string>,
    description: Option<string>,
    status: Option<ProjectStatus>,
    customerName: Option<string>,
    siteAddress: Option<string>,
    startDate: Option<Date>,
    endDate: Option<Date>,
    metadata: Option<Json>,
    columns: RowColumns)

  datatype ErrorKind = TooShort | TooLong | NotAStatus | EndBeforeStart

  datatype FieldError = FieldError(field: string, kind: ErrorKind)

  /** Length check of an optional text field: an absent value passes. */
  function LengthErrors(field: string, v: Option<string>, minLength: nat, maxLength: nat): (r: seq<FieldError>)
    ensures r == [] <==> v.None? || minLength <= |v.value| <= maxLength
    ensures forall e :: e in r ==> e.field == field
  {
    if v.None? then []
    else if |v.value| < minLength then [FieldError(field, TooShort)]
    else if |v.value| > maxLength then [FieldError(field, TooLong)]
    else []
  }

  function StatusErrors(v: Option<string>): (r: seq<FieldError>)
    ensures r == [] <==> v.None? || ParseStatus(v.value).Some?
  {
    if v.None? || ParseStatus(v.value).Some? then [] else [FieldError("status", NotAStatus)]
  }

  /** The end-date validator: a date strictly before the start date is
      rejected; with either date absent, or end >= start, the end date is
      returned unchanged. */
  function ValidateEndDate(startDate: Option<Date>, endDate: Option<Date>): (r: Result<Option<Date>, FieldError>)
    ensures r.Failure? <==> startDate.Some? && endDate.Some? && endDate.value < startDate.value
    ensures r.Success? ==> r.value == endDate
    ensures r.Failure? ==> r.error == FieldError("end_date", EndBeforeStart)
  {
    if endDate.Some? && startDate.Some? && endDate.value < startDate.value then
      Failure(FieldError("end_date", EndBeforeStart))
    else Success(endDate)
  }

  /** The bounds of the create model. */
  predicate CreateBoundsHold(p: ProjectInput)
  {
    && NameMinLength <= |p.name| <= NameMaxLength
    && (p.description.Some? ==> |p.description.value| <= DescriptionMaxLength)
    && (p.status.Some? ==> ParseStatus(p.status.value).Some?)
    && (p.customerName.Some? ==> |p.customerName.value| <= CustomerNameMaxLength)
    && (p.siteAddress.Some? ==> |p.siteAddress.value| <= SiteAddressMaxLength)
    && ValidateEndDate(p.startDate, p.endDate).Success?
  }

  /** Validates a create request, collecting one error per failing field in
      field order; on success the status defaults to draft and the inherited
      columns are carried as sent. */
  function ValidateProjectCreate(p: ProjectInput): (r: Result<ProjectCreate, seq<FieldError>>)
    ensures r.Success? <==> CreateBoundsHold(p)
    ensures r.Success? ==>
      var f := r.value.fields;
      && f.name == p.name && f.description == p.description
      && f.customerName == p.customerName && f.siteAddress == p.siteAddress
      && f.startDate == p.startDate && f.endDate == p.endDate
      && f.metadata == p.metadata
      && r.value.columns == p.columns
    ensures r.Success? ==>
      && (p.status.None? ==> r.value.fields.status == Draft)
      && (p.status.Some? ==> StatusValue(r.value.fields.status) == p.status.value)
    ensures r.Failure? ==> r.error != []
  {
    var dateErrors := match ValidateEndDate(p.startDate, p.endDate)
      case Success(_) => []
      case Failure(e) => [e];
    var errors := LengthErrors("name", Some(p.name), NameMinLength, NameMaxLength)
      + LengthErrors("description", p.description, 0, DescriptionMaxLength)
      + StatusErrors(p.status)
      + LengthErrors("customer_name", p.customerName, 0, CustomerNameMaxLength)
      + LengthErrors("site_address", p.siteAddress, 0, SiteAddressMaxLength)
      + dateErrors;
    if errors != [] then Failure(errors)
    else
      var status := if p.status.None? then Draft else ParseStatus(p.status.value).value;
      Success(ProjectCreate(ProjectFields(p.name, p.description, status, p.customerName, p.siteAddress,
                                          p.startDate, p.endDate, p.metadata),
                            p.columns))
  }

  /** The bounds of the update model: the same length bounds on whichever
      fields are present, and no check relating the two dates. */
  predicate UpdateBoundsHold(u: ProjectUpdateInput)
  {
    && (u.name.Some? ==> NameMinLength <= |u.name.value| <= NameMaxLength)
    && (u.description.Some? ==> |u.description.value| <= DescriptionMaxLength)
    && (u.status.Some? ==> ParseStatus(u.status.value).Some?)
    && (u.customerName.Some? ==> |u.customerName.value| <= CustomerNameMaxLength)
    && (u.siteAddress.Some? ==> |u.siteAddress.value| <= SiteAddressMaxLength)
  }

  /** Validates an update request into a patch that carries exactly the
      fields sent with a non-null value, the inherited columns included. */
  function ValidateProjectUpdate(u: ProjectUpdateInput): (r: Result<ProjectPatch, seq<FieldError>>)
    ensures r.Success? <==> UpdateBoundsHold(u)
    ensures r.Success? ==>
      && r.value.name == u.name && r.value.description == u.description
      && r.value.customerName == u.customerName && r.value.siteAddress == u.siteAddress
      && r.value.startDate == u.startDate && r.value.endDate == u.endDate
      && r.value.metadata == u.metadata && r.value.columns == u.columns
      && (r.value.status.Some? <==> u.status.Some?)
      && (u.status.Some? ==> StatusValue(r.value.status.value) == u.status.value)
  {
    var errors := LengthErrors("name", u.name, NameMinLength, NameMaxLength)
      + LengthErrors("description", u.description, 0, DescriptionMaxLength)
      + StatusErrors(u.status)
      + LengthErrors("customer_name", u.customerName, 0, CustomerNameMaxLength)
      + LengthErrors("site_address", u.siteAddress, 0, SiteAddressMaxLength);
    if errors != [] then Failure(errors)
    else
      var status := if u.status.None? then None else ParseStatus(u.status.value);
      Success(ProjectPatch(u.name, u.description, status, u.customerName, u.siteAddress,
                           u.startDate, u.endDate, u.metadata, u.columns))
  }

  /** The update model accepts dates the create model rejects: an end date
      before the start date passes update validation. */
  lemma {:induction false} UpdateAcceptsInvertedDates(start: Date, end: Date)
    requires end < start
    ensures ValidateProjectUpdate(ProjectUpdateInput(None, None, None, None, None, Some(start), Some(end), None, NoRowColumns)).Success?
    ensures ValidateProjectCreate(ProjectInput("p", None, None, None, None, Some(start), Some(end), None, NoRowColumns)).Failure?
  {
  }

  /** Validates the duplicate request's optional new name (at most 200 characters). */
  function ValidateDuplicateRequest(newName: Option<string>): (r: Result<Option<string>, seq<FieldError>>)
    ensures r.Success? <==> newName.None? || |newName.value| <= NewNameMaxLength
    ensures r.Success? ==> r.value == newName
  {
    var errors := LengthErrors("new_name", newName, 0, NewNameMaxLength);
    if errors == [] then Success(newName) else Failure(errors)
  }
}
