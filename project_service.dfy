/** The projects table and the service operations on it. Every operation is
    scoped by the caller's user id: a row is visible only when both its id
    and its owner match. */
module ProjectService {
  import opened Common
  import opened ProjectModel
  import Pagination

  /** A stored project row. Ids are assigned by the store unless a request
      sends one. */
  datatype Project = Project(
    id: nat, userId: string, fields: ProjectFields, createdAt: Timestamp, updatedAt: Timestamp)

  /** Suffix appended to the name of a duplicate when no new name is given. */
  const CopySuffix: string := " のコピー"

  predicate Visible(p: Project, id: nat, userId: string)
  {
    p.id == id && p.userId == userId
  }

  ghost predicate UniqueIds(rows: seq<Project>)
  {
    forall i, j :: 0 <= i < j < |rows| ==> rows[i].id != rows[j].id
  }

  /** Some row already has id `n`. */
  predicate IdTaken(rows: seq<Project>, n: nat)
  {
    exists i :: 0 <= i < |rows| && rows[i].id == n
  }

  /** Why a service operation raises. DuplicateId: the store rejects a write
      that would give a second row an id in use (the primary key).
      NotSerialisable: the request body holds a timestamp, which the JSON
      encoder of the store client cannot write. Invalid: a project model
      rejects its fields (a validation error), either the create model built
      for a duplicate or the project model rebuilt from a row read back. */
  datatype ServiceError = DuplicateId(id: nat) | NotSerialisable | Invalid(errors: seq<FieldError>)

  /** A request body sends created_at or updated_at: dumping the model keeps
      them as datetime objects, and encoding the body fails. */
  predicate SendsTimestamp(c: RowColumns)
  {
    c.createdAt.Some? || c.updatedAt.Some?
  }

  /** The length bounds every stored project satisfies, since both the create
      and the update model enforce them. */
  predicate StoredBoundsHold(f: ProjectFields)
  {
    && NameMinLength <= |f.name| <= NameMaxLength
    && (f.description.Some? ==> |f.description.value| <= DescriptionMaxLength)
    && (f.customerName.Some? ==> |f.customerName.value| <= CustomerNameMaxLength)
    && (f.siteAddress.Some? ==> |f.siteAddress.value| <= SiteAddressMaxLength)
  }

  predicate DatesInOrder(f: ProjectFields)
  {
    ValidateEndDate(f.startDate, f.endDate).Success?
  }

  /** A row's fields as the project model receives them when the row is read
      back. */
  function RowInput(p: Project): ProjectInput
  {
    var f := p.fields;
    ProjectInput(f.name, f.description, Some(StatusValue(f.status)), f.customerName, f.siteAddress,
                 f.startDate, f.endDate, f.metadata, NoRowColumns)
  }

  /** Rebuilding the project model from a row the store returned: the row's
      fields pass the same validators as a create request, the end-date check
      included, and a failure is the validation error. A row within the
      stored length bounds fails exactly when its end date precedes its start
      date. */
  function ReadBack(p: Project): (r: Result<Project, seq<FieldError>>)
    ensures r.Success? <==> CreateBoundsHold(RowInput(p))
    ensures r.Success? ==> r.value == p
    ensures r.Failure? ==> r.error != []
    ensures StoredBoundsHold(p.fields) ==> (r.Success? <==> DatesInOrder(p.fields))
    ensures StoredBoundsHold(p.fields) && r.Failure? ==> r.error == [FieldError("end_date", EndBeforeStart)]
  {
    StatusRoundTrip(p.fields.status, StatusValue(p.fields.status));
    match ValidateProjectCreate(RowInput(p))
    case Success(_) => Success(p)
    case Failure(e) => Failure(e)
  }

  /** Rebuilds the rows of a page in order; the first row that does not pass
      raises, and its error is the result. */
  function ReadBackAll(s: seq<Project>): (r: Result<seq<Project>, seq<FieldError>>)
    ensures r.Success? <==> forall i :: 0 <= i < |s| ==> ReadBack(s[i]).Success?
    ensures r.Success? ==> r.value == s
    ensures r.Failure? ==> exists i :: 0 <= i < |s| && ReadBack(s[i]).Failure? && r.error == ReadBack(s[i]).error
                                       && forall j :: 0 <= j < i ==> ReadBack(s[j]).Success?
  {
    if s == [] then Success([])
    else if ReadBack(s[0]).Failure? then Failure(ReadBack(s[0]).error)
    else
      var rest := ReadBackAll(s[1..]);
      ReadBackAllShift(s, rest);
      if rest.Failure? then Failure(rest.error) else Success(s)
  }

  /** The step of ReadBackAll past a first row that reads back. */
  lemma {:induction false} ReadBackAllShift(s: seq<Project>, rest: Result<seq<Project>, seq<FieldError>>)
    requires s != [] && ReadBack(s[0]).Success?
    requires rest.Success? <==> forall i :: 0 <= i < |s[1..]| ==> ReadBack(s[1..][i]).Success?
    requires rest.Failure? ==> exists i :: 0 <= i < |s[1..]| && ReadBack(s[1..][i]).Failure? && rest.error == ReadBack(s[1..][i]).error
                                           && forall j :: 0 <= j < i ==> ReadBack(s[1..][j]).Success?
    ensures rest.Success? <==> forall i :: 0 <= i < |s| ==> ReadBack(s[i]).Success?
    ensures rest.Failure? ==> exists i :: 0 <= i < |s| && ReadBack(s[i]).Failure? && rest.error == ReadBack(s[i]).error
                                          && forall j :: 0 <= j < i ==> ReadBack(s[j]).Success?
  {
    if rest.Success? {
      forall i | 0 <= i < |s| ensures ReadBack(s[i]).Success? {
        if i > 0 {
          assert s[i] == s[1..][i - 1];
        }
      }
    } else {
      var k :| 0 <= k < |s[1..]| && ReadBack(s[1..][k]).Failure? && rest.error == ReadBack(s[1..][k]).error
               && forall j :: 0 <= j < k ==> ReadBack(s[1..][j]).Success?;
      assert s[k + 1] == s[1..][k];
      forall j | 0 <= j < k + 1 ensures ReadBack(s[j]).Success? {
        if j > 0 {
          assert s[j] == s[1..][j - 1];
        }
      }
    }
  }

  /** No row's end date precedes its start date. In a well-formed table this
      is every row reading back (see ReadBack). */
  predicate AllDatesInOrder(rows: seq<Project>)
  {
    forall i :: 0 <= i < |rows| ==> DatesInOrder(rows[i].fields)
  }

  /** The first row, in table order, matching both id and owner. */
  function FirstVisible(rows: seq<Project>, id: nat, userId: string): (r: Option<Project>)
    ensures r.Some? <==> exists i :: 0 <= i < |rows| && Visible(rows[i], id, userId)
    ensures r.Some? ==> exists i :: 0 <= i < |rows| && rows[i] == r.value && Visible(r.value, id, userId)
                                   && forall j :: 0 <= j < i ==> !Visible(rows[j], id, userId)
  {
    if rows == [] then None
    else if Visible(rows[0], id, userId) then Some(rows[0])
    else
      var r := FirstVisible(rows[1..], id, userId);
      assert forall i :: 0 < i < |rows| ==> rows[i] == rows[1..][i - 1];
      r
  }

  /** Appending a row whose id no row has keeps ids unique. */
  lemma {:induction false} AppendFreshKeepsUnique(rows: seq<Project>, p: Project)
    requires UniqueIds(rows) && !IdTaken(rows, p.id)
    ensures UniqueIds(rows + [p])
  {
    var r := rows + [p];
    forall i, j | 0 <= i < j < |r| ensures r[i].id != r[j].id {
      if j == |rows| {
        assert r[i] == rows[i];
      }
    }
  }

  /** A row appended with an id no other row has is the one found by its id. */
  lemma {:induction false} FirstVisibleAppend(rows: seq<Project>, p: Project, userId: string)
    requires !IdTaken(rows, p.id)
    requires p.userId == userId
    ensures FirstVisible(rows + [p], p.id, userId) == Some(p)
  {
    if rows != [] {
      FirstVisibleAppend(rows[1..], p, userId);
      assert (rows + [p])[1..] == rows[1..] + [p];
    }
  }

  /** The two "eq" filters of the listing query. */
  predicate Wanted(p: Project, userId: string, status: Option<ProjectStatus>)
  {
    p.userId == userId && (status.Some? ==> p.fields.status == status.value)
  }

  /** The caller's rows, further restricted to one status when a filter is
      given, each as often as in the table. */
  function Selected(rows: seq<Project>, userId: string, status: Option<ProjectStatus>): (r: seq<Project>)
    ensures forall p :: multiset(r)[p] == if Wanted(p, userId, status) then multiset(rows)[p] else 0
    ensures forall p :: p in r <==> p in rows && Wanted(p, userId, status)
    ensures |r| <= |rows|
  {
    if rows == [] then []
    else
      var rest := Selected(rows[1..], userId, status);
      assert rows == [rows[0]] + rows[1..];
      if Wanted(rows[0], userId, status) then [rows[0]] + rest else rest
  }

  /** The store's "order by updated_at desc". */
  function NewestFirst(s: seq<Project>): (r: seq<Project>)
    ensures multiset(r) == multiset(s)
  {
    SortBy(s, (p: Project) => -p.updatedAt)
  }

  lemma {:induction false} NewestFirstOrdered(s: seq<Project>)
    ensures forall i, j :: 0 <= i < j < |NewestFirst(s)| ==> NewestFirst(s)[i].updatedAt >= NewestFirst(s)[j].updatedAt
  {
    var key := (p: Project) => -p.updatedAt;
    SortBySorted(s, key);
    var r := NewestFirst(s);
    forall i, j | 0 <= i < j < |r| ensures r[i].updatedAt >= r[j].updatedAt {
      assert key(r[i]) <= key(r[j]);
    }
  }

  /** The inclusive range [offset, offset + limit - 1] of `s`, cut off at its end. */
  function Window(s: seq<Project>, offset: nat, limit: nat): (r: seq<Project>)
    ensures |r| <= limit
    ensures offset >= |s| ==> r == []
    ensures offset < |s| ==> |r| == if |s| - offset < limit then |s| - offset else limit
    ensures forall k :: 0 <= k < |r| ==> r[k] == s[offset + k]
  {
    if offset >= |s| then []
    else if offset + limit <= |s| then s[offset..offset + limit]
    else s[offset..]
  }

  /** A window of a newest-first sequence is itself newest first, and holds
      only elements of the sequence. */
  lemma {:induction false} WindowOfOrdered(s: seq<Project>, offset: nat, limit: nat)
    requires forall i, j :: 0 <= i < j < |s| ==> s[i].updatedAt >= s[j].updatedAt
    ensures forall p :: p in Window(s, offset, limit) ==> p in s
    ensures var w := Window(s, offset, limit);
      forall i, j :: 0 <= i < j < |w| ==> w[i].updatedAt >= w[j].updatedAt
  {
    var w := Window(s, offset, limit);
    forall p | p in w ensures p in s {
      var k :| 0 <= k < |w| && w[k] == p;
      assert s[offset + k] == p;
    }
    forall i, j | 0 <= i < j < |w| ensures w[i].updatedAt >= w[j].updatedAt {
      assert w[i] == s[offset + i] && w[j] == s[offset + j];
    }
  }

  /** The rows of any window over the newest-first selection belong to the
      caller, match the status filter, and come newest first. */
  lemma {:induction false} ListedRowsMatch(rows: seq<Project>, userId: string, status: Option<ProjectStatus>,
                                           offset: nat, limit: nat)
    ensures var w := Window(NewestFirst(Selected(rows, userId, status)), offset, limit);
      && (forall p :: p in w ==> p in rows && p.userId == userId && (status.Some? ==> p.fields.status == status.value))
      && (forall i, j :: 0 <= i < j < |w| ==> w[i].updatedAt >= w[j].updatedAt)
  {
    var selected := Selected(rows, userId, status);
    var ordered := NewestFirst(selected);
    NewestFirstOrdered(selected);
    WindowOfOrdered(ordered, offset, limit);
    forall p | p in ordered ensures p in selected {
      assert p in multiset(ordered);
    }
  }

  datatype ProjectList = ProjectList(projects: seq<Project>, total: nat, page: int, pageSize: int)

  /** The caller's project with this id, rebuilt from the row read back:
      None when no row is visible, and the validation error when the stored
      row no longer passes the project model. */
  function Lookup(rows: seq<Project>, id: nat, userId: string): (r: Result<Option<Project>, ServiceError>)
    ensures r == Success(None) <==> forall i :: 0 <= i < |rows| ==> !Visible(rows[i], id, userId)
    ensures r.Success? && r.value.Some? ==> r.value.value in rows && Visible(r.value.value, id, userId)
    ensures r.Failure? <==>
      FirstVisible(rows, id, userId).Some? && ReadBack(FirstVisible(rows, id, userId).value).Failure?
    ensures r.Failure? ==> r.error == Invalid(ReadBack(FirstVisible(rows, id, userId).value).error)
  {
    match FirstVisible(rows, id, userId)
    case None => Success(None)
    case Some(p) =>
      match ReadBack(p)
      case Success(q) => Success(Some(q))
      case Failure(e) => Failure(Invalid(e))
  }

  /** One page of the caller's projects, newest update first, with the total
      number of matching projects; the validation error of the first row on
      the page that no longer passes the project model. */
  function Listing(rows: seq<Project>, userId: string, page: int, pageSize: int, status: Option<ProjectStatus>)
    : (r: Result<ProjectList, ServiceError>)
    requires Pagination.ValidParams(Pagination.PaginationParams(page, pageSize))
    ensures var w := Window(NewestFirst(Selected(rows, userId, status)),
                            Pagination.Offset(Pagination.PaginationParams(page, pageSize)), pageSize);
      && (r.Success? <==> forall i :: 0 <= i < |w| ==> ReadBack(w[i]).Success?)
      && (r.Success? ==> r.value == ProjectList(w, |Selected(rows, userId, status)|, page, pageSize))
      && (r.Failure? ==> exists i :: 0 <= i < |w| && ReadBack(w[i]).Failure? && r.error == Invalid(ReadBack(w[i]).error))
      && |w| <= pageSize
      && (forall p :: p in w ==> p in rows && p.userId == userId && (status.Some? ==> p.fields.status == status.value))
      && (forall i, j :: 0 <= i < j < |w| ==> w[i].updatedAt >= w[j].updatedAt)
  {
    var offset := Pagination.Offset(Pagination.PaginationParams(page, pageSize));
    var w := Window(NewestFirst(Selected(rows, userId, status)), offset, pageSize);
    ListedRowsMatch(rows, userId, status, offset, pageSize);
    match ReadBackAll(w)
    case Failure(e) => Failure(Invalid(e))
    case Success(projects) => Success(ProjectList(projects, |Selected(rows, userId, status)|, page, pageSize))
  }

  /** Patch fields that every validated update satisfies. */
  predicate PatchBoundsHold(patch: ProjectPatch)
  {
    && (patch.name.Some? ==> NameMinLength <= |patch.name.value| <= NameMaxLength)
    && (patch.description.Some? ==> |patch.description.value| <= DescriptionMaxLength)
    && (patch.customerName.Some? ==> |patch.customerName.value| <= CustomerNameMaxLength)
    && (patch.siteAddress.Some? ==> |patch.siteAddress.value| <= SiteAddressMaxLength)
  }

  /** A patch with nothing left after unset and null fields are dropped.
      A sent id, created_at or updated_at makes it non-empty. */
  predicate IsEmptyPatch(patch: ProjectPatch)
  {
    patch == ProjectPatch(None, None, None, None, None, None, None, None, NoRowColumns)
  }

  /** Merges a patch into a project's fields: present fields overwrite, the
      others stay. No field can become absent. */
  function MergePatch(f: ProjectFields, patch: ProjectPatch): (r: ProjectFields)
    ensures patch.name.Some? ==> r.name == patch.name.value
    ensures patch.name.None? ==> r.name == f.name
    ensures patch.status.Some? ==> r.status == patch.status.value
    ensures patch.status.None? ==> r.status == f.status
    ensures r.description == if patch.description.Some? then patch.description else f.description
    ensures r.customerName == if patch.customerName.Some? then patch.customerName else f.customerName
    ensures r.siteAddress == if patch.siteAddress.Some? then patch.siteAddress else f.siteAddress
    ensures r.startDate == if patch.startDate.Some? then patch.startDate else f.startDate
    ensures r.endDate == if patch.endDate.Some? then patch.endDate else f.endDate
    ensures r.metadata == if patch.metadata.Some? then patch.metadata else f.metadata
  {
    ProjectFields(
      if patch.name.Some? then patch.name.value else f.name,
      if patch.description.Some? then patch.description else f.description,
      if patch.status.Some? then patch.status.value else f.status,
      if patch.customerName.Some? then patch.customerName else f.customerName,
      if patch.siteAddress.Some? then patch.siteAddress else f.siteAddress,
      if patch.startDate.Some? then patch.startDate else f.startDate,
      if patch.endDate.Some? then patch.endDate else f.endDate,
      if patch.metadata.Some? then patch.metadata else f.metadata)
  }

  /** A validated patch keeps a stored project within the length bounds. */
  lemma {:induction false} MergeKeepsBounds(f: ProjectFields, patch: ProjectPatch)
    requires StoredBoundsHold(f) && PatchBoundsHold(patch)
    ensures StoredBoundsHold(MergePatch(f, patch))
  {
    var r := MergePatch(f, patch);
    assert NameMinLength <= |r.name| <= NameMaxLength;
  }

  /** An update can never clear a field: whatever was present stays present. */
  lemma {:induction false} MergeNeverClears(f: ProjectFields, patch: ProjectPatch)
    ensures var r := MergePatch(f, patch);
      && (f.description.Some? ==> r.description.Some?)
      && (f.customerName.Some? ==> r.customerName.Some?)
      && (f.siteAddress.Some? ==> r.siteAddress.Some?)
      && (f.startDate.Some? ==> r.startDate.Some?)
      && (f.endDate.Some? ==> r.endDate.Some?)
      && (f.metadata.Some? ==> r.metadata.Some?)
  {
  }

  /** A project after a non-empty update at time `now`: a sent id is written
      as sent, created_at stays (an update sending it cannot be encoded), and
      updated_at is always `now`, whatever the request sent. */
  function Patched(p: Project, patch: ProjectPatch, now: Timestamp): (r: Project)
    ensures r.id == if patch.columns.id.Some? then patch.columns.id.value else p.id
    ensures r.createdAt == p.createdAt
    ensures r.userId == p.userId
    ensures r.updatedAt == now && r.fields == MergePatch(p.fields, patch)
    ensures StoredBoundsHold(p.fields) && PatchBoundsHold(patch) ==> StoredBoundsHold(r.fields)
  {
    assert StoredBoundsHold(p.fields) && PatchBoundsHold(patch) ==> StoredBoundsHold(MergePatch(p.fields, patch)) by {
      if StoredBoundsHold(p.fields) && PatchBoundsHold(patch) {
        MergeKeepsBounds(p.fields, patch);
      }
    }
    p.(id := if patch.columns.id.Some? then patch.columns.id.value else p.id,
       fields := MergePatch(p.fields, patch), updatedAt := now)
  }

  /** An update that sends only updated_at is not empty, and all it does is
      move updated_at to the time of the update. */
  lemma {:induction false} SentUpdatedAtOnlyTouches(p: Project, sent: Timestamp, now: Timestamp)
    ensures var patch := ProjectPatch(None, None, None, None, None, None, None, None, RowColumns(None, None, Some(sent)));
      !IsEmptyPatch(patch) && Patched(p, patch, now) == p.(updatedAt := now)
  {
  }

  /** The table after "update ... where id = id and user_id = userId". */
  function UpdateVisible(rows: seq<Project>, id: nat, userId: string, patch: ProjectPatch, now: Timestamp)
    : (r: seq<Project>)
    ensures |r| == |rows|
    ensures forall i :: 0 <= i < |rows| ==>
      r[i] == if Visible(rows[i], id, userId) then Patched(rows[i], patch, now) else rows[i]
  {
    if rows == [] then []
    else
      var head := if Visible(rows[0], id, userId) then Patched(rows[0], patch, now) else rows[0];
      [head] + UpdateVisible(rows[1..], id, userId, patch, now)
  }

  /** The update writes a row exactly when the caller could see one: the
      patched version of that row is then in the table, and otherwise the table
      is unchanged. When the patch keeps the id, a get by that id finds the
      patched row. */
  lemma {:induction false} UpdateReturnsPatchedRow(rows: seq<Project>, id: nat, userId: string, patch: ProjectPatch, now: Timestamp)
    ensures var before := FirstVisible(rows, id, userId);
      var r := UpdateVisible(rows, id, userId, patch, now);
      && (before.None? ==> r == rows)
      && (before.Some? ==> Patched(before.value, patch, now) in r)
    ensures patch.columns.id.None? || patch.columns.id == Some(id) ==>
      var before := FirstVisible(rows, id, userId);
      var after := FirstVisible(UpdateVisible(rows, id, userId, patch, now), id, userId);
      (after.Some? <==> before.Some?) && (after.Some? ==> after.value == Patched(before.value, patch, now))
  {
    if rows != [] {
      var r := UpdateVisible(rows, id, userId, patch, now);
      UpdateReturnsPatchedRow(rows[1..], id, userId, patch, now);
      assert r[1..] == UpdateVisible(rows[1..], id, userId, patch, now);
      assert r == [r[0]] + r[1..];
      assert rows == [rows[0]] + rows[1..];
    }
  }

  /** The update would give the visible row an id another row already has. */
  predicate IdClash(rows: seq<Project>, id: nat, userId: string, patch: ProjectPatch)
  {
    && patch.columns.id.Some? && patch.columns.id.value != id
    && FirstVisible(rows, id, userId).Some? && IdTaken(rows, patch.columns.id.value)
  }

  /** Without a clash the update keeps ids unique: at most one row is visible,
      and only its id can change. */
  lemma {:induction false} UpdateKeepsUniqueIds(rows: seq<Project>, id: nat, userId: string, patch: ProjectPatch,
                                                now: Timestamp)
    requires UniqueIds(rows) && !IdClash(rows, id, userId, patch)
    ensures UniqueIds(UpdateVisible(rows, id, userId, patch, now))
  {
    var r := UpdateVisible(rows, id, userId, patch, now);
    forall i, j | 0 <= i < j < |r| ensures r[i].id != r[j].id {
      if Visible(rows[i], id, userId) && !Visible(rows[j], id, userId) {
        assert rows[j].id != id;
        if patch.columns.id.Some? && patch.columns.id.value != id {
          assert FirstVisible(rows, id, userId).Some?;
          assert !IdTaken(rows, patch.columns.id.value);
        }
      } else if Visible(rows[j], id, userId) && !Visible(rows[i], id, userId) {
        assert rows[i].id != id;
        if patch.columns.id.Some? && patch.columns.id.value != id {
          assert FirstVisible(rows, id, userId).Some?;
          assert !IdTaken(rows, patch.columns.id.value);
        }
      }
    }
  }

  /** The table after "delete ... where id = id and user_id = userId". */
  function RemoveVisible(rows: seq<Project>, id: nat, userId: string): (r: seq<Project>)
    ensures forall p :: p in r <==> p in rows && !Visible(p, id, userId)
    ensures |r| <= |rows|
    ensures UniqueIds(rows) ==> UniqueIds(r)
  {
    if rows == [] then []
    else
      var rest := RemoveVisible(rows[1..], id, userId);
      assert forall p :: p in rows <==> p == rows[0] || p in rows[1..];
      if Visible(rows[0], id, userId) then rest
      else
        assert UniqueIds(rows) ==> forall k :: 0 <= k < |rest| ==> rest[k].id != rows[0].id by {
          if UniqueIds(rows) {
            forall k | 0 <= k < |rest| ensures rest[k].id != rows[0].id {
              assert rest[k] in rows[1..];
              var m :| 0 <= m < |rows[1..]| && rows[1..][m] == rest[k];
              assert rows[m + 1] == rest[k];
            }
          }
        }
        [rows[0]] + rest
  }

  /** The delete removes every visible row and keeps each other row as often
      as the table had it. */
  lemma {:induction false} RemoveVisibleCounts(rows: seq<Project>, id: nat, userId: string)
    ensures forall p :: multiset(RemoveVisible(rows, id, userId))[p] ==
                        (if Visible(p, id, userId) then 0 else multiset(rows)[p])
  {
    if rows != [] {
      RemoveVisibleCounts(rows[1..], id, userId);
      assert rows == [rows[0]] + rows[1..];
    }
  }

  /** The fields a duplicate is created from: the original's fields, with the
      new name if one is given and non-empty (else the original name plus the
      copy suffix) and the status reset to draft. */
  function DuplicateInput(original: Project, newName: Option<string>): ProjectInput
  {
    RowInput(original).(name := if Truthy(newName) then newName.value else original.fields.name + CopySuffix,
                        status := Some(StatusValue(Draft)))
  }

  /** For a stored original, the duplicate passes the create model exactly
      when its name fits in 200 characters and the original's end date does
      not precede its start date. A duplicate never fails on the dates:
      reading an original with inverted dates back already fails, before
      the copy is built. */
  lemma {:induction false} DuplicateValidIff(original: Project, newName: Option<string>)
    requires StoredBoundsHold(original.fields)
    requires newName.None? || |newName.value| <= NewNameMaxLength
    ensures var input := DuplicateInput(original, newName);
      CreateBoundsHold(input) <==>
        |input.name| <= NameMaxLength
        && ValidateEndDate(original.fields.startDate, original.fields.endDate).Success?
  {
    var input := DuplicateInput(original, newName);
    assert |input.name| >= NameMinLength by {
      if !Truthy(newName) {
        assert |input.name| == |original.fields.name| + |CopySuffix|;
      }
    }
    assert ParseStatus(StatusValue(Draft)) == Some(Draft);
  }

  /** Duplicating a project whose name is longer than 195 characters without
      a new name always fails validation: the copy suffix pushes it past 200. */
  lemma {:induction false} LongNameDuplicateFails(original: Project, newName: Option<string>)
    requires |original.fields.name| > NameMaxLength - |CopySuffix|
    requires !Truthy(newName)
    ensures !CreateBoundsHold(DuplicateInput(original, newName))
  {
    assert |CopySuffix| == 5;
    assert |DuplicateInput(original, newName).name| == |original.fields.name| + 5;
  }

  /** Every page of the newest-first selection holds exactly the items whose
      index falls in its window, and the item at index i is found on page
      i / page_size + 1 at position i % page_size. */
  lemma {:induction false} PagesCoverSelection(s: seq<Project>, i: nat, pageSize: int)
    requires 1 <= pageSize <= Pagination.MaxPageSize && i < |s|
    ensures var p := Pagination.PaginationParams(i / pageSize + 1, pageSize);
      Pagination.ValidParams(p)
      && i % pageSize < |Window(s, Pagination.Offset(p), Pagination.Limit(p))|
      && Window(s, Pagination.Offset(p), Pagination.Limit(p))[i % pageSize] == s[i]
  {
    Pagination.IndexInExactlyOnePage(i, pageSize);
    var p := Pagination.PaginationParams(i / pageSize + 1, pageSize);
    assert Pagination.Offset(p) == (i / pageSize) * pageSize;
    assert i == (i / pageSize) * pageSize + i % pageSize;
  }

  /** The next id to hand out once `id` is in use: generated ids never meet
      an id a request sent. */
  function NextAfter(nextId: nat, id: nat): (r: nat)
    ensures r >= nextId && r > id
  {
    if id >= nextId then id + 1 else nextId
  }

  /** After an update, every id is below the next id to hand out, which moves
      past the sent id when a row took it. */
  lemma {:induction false} UpdateIdsBelow(rows: seq<Project>, id: nat, userId: string, patch: ProjectPatch,
                                          now: Timestamp, bound: nat)
    requires forall i :: 0 <= i < |rows| ==> rows[i].id < bound
    ensures var r := UpdateVisible(rows, id, userId, patch, now);
      var next := if patch.columns.id.Some? && FirstVisible(rows, id, userId).Some?
        then NextAfter(bound, patch.columns.id.value) else bound;
      forall i :: 0 <= i < |r| ==> r[i].id < next
  {
    var r := UpdateVisible(rows, id, userId, patch, now);
    forall i | 0 <= i < |r| && Visible(rows[i], id, userId)
      ensures FirstVisible(rows, id, userId).Some?
    {
    }
  }

  /** Ids are unique and below the next id to hand out; every row keeps the
      field length bounds. */
  ghost predicate WellFormed(rows: seq<Project>, nextId: nat)
  {
    && (forall i :: 0 <= i < |rows| ==> rows[i].id < nextId && StoredBoundsHold(rows[i].fields))
    && UniqueIds(rows)
  }

  /** Appending a row within the bounds whose id no row has keeps the table
      well formed, once the next id moves past it. */
  lemma {:induction false} AppendKeepsWellFormed(rows: seq<Project>, nextId: nat, p: Project)
    requires WellFormed(rows, nextId) && !IdTaken(rows, p.id) && StoredBoundsHold(p.fields)
    ensures WellFormed(rows + [p], NextAfter(nextId, p.id))
  {
    AppendFreshKeepsUnique(rows, p);
  }

  /** A created row appended to the table: the table stays well formed, the
      row is the one found by its id and reads back as itself, and every row
      stays readable if every row was. */
  lemma {:induction false} CreatedRow(rows: seq<Project>, nextId: nat, p: Project)
    requires WellFormed(rows, nextId) && !IdTaken(rows, p.id)
    requires StoredBoundsHold(p.fields) && DatesInOrder(p.fields)
    ensures WellFormed(rows + [p], NextAfter(nextId, p.id))
    ensures FirstVisible(rows + [p], p.id, p.userId) == Some(p)
    ensures ReadBack(p) == Success(p)
    ensures AllDatesInOrder(rows) ==> AllDatesInOrder(rows + [p])
  {
    AppendKeepsWellFormed(rows, nextId, p);
    FirstVisibleAppend(rows, p, p.userId);
    assert AllDatesInOrder(rows) ==> AllDatesInOrder(rows + [p]) by {
      if AllDatesInOrder(rows) {
        forall i | 0 <= i < |rows + [p]| ensures DatesInOrder((rows + [p])[i].fields) {
          if i < |rows| {
            assert (rows + [p])[i] == rows[i];
          }
        }
      }
    }
  }

  /** In a well-formed table whose dates are all in order, any rows taken
      from it read back. */
  lemma {:induction false} RowsOfTableReadBack(rows: seq<Project>, nextId: nat, w: seq<Project>)
    requires WellFormed(rows, nextId) && AllDatesInOrder(rows)
    requires forall p :: p in w ==> p in rows
    ensures forall i :: 0 <= i < |w| ==> ReadBack(w[i]).Success?
  {
    forall i | 0 <= i < |w| ensures ReadBack(w[i]).Success? {
      assert w[i] in w;
      var k :| 0 <= k < |rows| && rows[k] == w[i];
    }
  }

  /** An update without an id clash keeps the table well formed, once the
      next id moves past an id the patch gave a row. */
  lemma {:induction false} UpdateKeepsWellFormed(rows: seq<Project>, nextId: nat, id: nat, userId: string,
                                                 patch: ProjectPatch, now: Timestamp)
    requires WellFormed(rows, nextId) && PatchBoundsHold(patch) && !IdClash(rows, id, userId, patch)
    ensures WellFormed(UpdateVisible(rows, id, userId, patch, now),
                       if patch.columns.id.Some? && FirstVisible(rows, id, userId).Some?
                       then NextAfter(nextId, patch.columns.id.value) else nextId)
  {
    UpdateKeepsUniqueIds(rows, id, userId, patch, now);
    UpdateIdsBelow(rows, id, userId, patch, now, nextId);
    var r := UpdateVisible(rows, id, userId, patch, now);
    forall i | 0 <= i < |r| ensures StoredBoundsHold(r[i].fields) {
      assert StoredBoundsHold(rows[i].fields);
    }
  }

  /** With unique ids, a visible row is the one found by id and owner. */
  lemma {:induction false} VisibleIsFirst(rows: seq<Project>, id: nat, userId: string, i: nat)
    requires UniqueIds(rows) && i < |rows| && Visible(rows[i], id, userId)
    ensures FirstVisible(rows, id, userId) == Some(rows[i])
  {
    var first := FirstVisible(rows, id, userId);
    assert first.Some?;
    var k :| 0 <= k < |rows| && rows[k] == first.value && Visible(first.value, id, userId)
             && forall j :: 0 <= j < k ==> !Visible(rows[j], id, userId);
  }

  /** An update that writes only a patched row that reads back keeps every
      row of the table readable. */
  lemma {:induction false} CheckedUpdateKeepsReadable(rows: seq<Project>, id: nat, userId: string,
                                                      patch: ProjectPatch, now: Timestamp)
    requires UniqueIds(rows) && AllDatesInOrder(rows)
    requires FirstVisible(rows, id, userId).Some? ==>
      DatesInOrder(Patched(FirstVisible(rows, id, userId).value, patch, now).fields)
    ensures AllDatesInOrder(UpdateVisible(rows, id, userId, patch, now))
  {
    var r := UpdateVisible(rows, id, userId, patch, now);
    forall i | 0 <= i < |r| ensures DatesInOrder(r[i].fields) {
      if Visible(rows[i], id, userId) {
        VisibleIsFirst(rows, id, userId, i);
      }
    }
  }

  /** The write of the checked update: the table stays well formed, holds the
      patched row, and keeps every row readable if it did before. */
  lemma {:induction false} CheckedWrite(rows: seq<Project>, nextId: nat, id: nat, userId: string,
                                        patch: ProjectPatch, now: Timestamp)
    requires WellFormed(rows, nextId) && PatchBoundsHold(patch) && !IdClash(rows, id, userId, patch)
    requires FirstVisible(rows, id, userId).Some?
    requires DatesInOrder(Patched(FirstVisible(rows, id, userId).value, patch, now).fields)
    ensures var after := UpdateVisible(rows, id, userId, patch, now);
      && WellFormed(after, if patch.columns.id.Some? then NextAfter(nextId, patch.columns.id.value) else nextId)
      && Patched(FirstVisible(rows, id, userId).value, patch, now) in after
      && (AllDatesInOrder(rows) ==> AllDatesInOrder(after))
  {
    UpdateReturnsPatchedRow(rows, id, userId, patch, now);
    UpdateKeepsWellFormed(rows, nextId, id, userId, patch, now);
    if AllDatesInOrder(rows) {
      CheckedUpdateKeepsReadable(rows, id, userId, patch, now);
    }
  }

  /** As written, an update that leaves the dates inverted is stored, and the
      stored row no longer reads back: a project without dates that is sent
      start date 2 and end date 1 passes the update model, is written, and
      every later read of it fails. */
  lemma {:induction false} UpdateWritesUnreadableRow(p: Project, now: Timestamp)
    requires StoredBoundsHold(p.fields) && p.fields.startDate.None? && p.fields.endDate.None?
    ensures var patch := ProjectPatch(None, None, None, None, None, Some(2), Some(1), None, NoRowColumns);
      var after := UpdateVisible([p], p.id, p.userId, patch, now);
      && PatchBoundsHold(patch) && !IsEmptyPatch(patch) && !IdClash([p], p.id, p.userId, patch)
      && ReadBack(p).Success?
      && after == [Patched(p, patch, now)]
      && FirstVisible(after, p.id, p.userId) == Some(after[0])
      && ReadBack(after[0]) == Failure([FieldError("end_date", EndBeforeStart)])
  {
    var patch := ProjectPatch(None, None, None, None, None, Some(2), Some(1), None, NoRowColumns);
    assert StoredBoundsHold(Patched(p, patch, now).fields);
  }

  class ProjectStore {
    var rows: seq<Project>
    var nextId: nat

    ghost predicate Valid()
      reads this
    {
      WellFormed(rows, nextId)
    }

    constructor ()
      ensures Valid() && rows == [] && nextId == 0
    {
      rows := [];
      nextId := 0;
    }

    /** Inserts a validated project owned by `userId` and returns the row
        read back. A sent id is written as sent; otherwise the id is a fresh
        one. Both timestamps are `now`. A request sending a timestamp cannot
        be encoded, and a sent id already in use is rejected; either way
        nothing is written. */
    method CreateProject(userId: string, data: ProjectCreate, now: Timestamp) returns (r: Result<Project, ServiceError>)
      requires Valid() && StoredBoundsHold(data.fields) && DatesInOrder(data.fields)
      modifies this
      ensures Valid()
      ensures AllDatesInOrder(old(rows)) ==> AllDatesInOrder(rows)
      ensures SendsTimestamp(data.columns) ==>
        r == Failure(NotSerialisable) && rows == old(rows) && nextId == old(nextId)
      ensures !SendsTimestamp(data.columns) && data.columns.id.Some? && IdTaken(old(rows), data.columns.id.value) ==>
        r == Failure(DuplicateId(data.columns.id.value)) && rows == old(rows) && nextId == old(nextId)
      ensures !SendsTimestamp(data.columns) && !(data.columns.id.Some? && IdTaken(old(rows), data.columns.id.value)) ==>
        && r.Success?
        && r.value == Project(if data.columns.id.Some? then data.columns.id.value else old(nextId),
                              userId, data.fields, now, now)
        && rows == old(rows) + [r.value] && nextId == NextAfter(old(nextId), r.value.id)
        && GetProject(r.value.id, userId) == Success(Some(r.value))
    {
      var c := data.columns;
      if SendsTimestamp(c) {
        return Failure(NotSerialisable);
      }
      if c.id.Some? && IdTaken(rows, c.id.value) {
        return Failure(DuplicateId(c.id.value));
      }
      var p := Project(if c.id.Some? then c.id.value else nextId, userId, data.fields, now, now);
      CreatedRow(rows, nextId, p);
      rows, nextId := rows + [p], NextAfter(nextId, p.id);
      var back := ReadBack(p);
      r := Success(back.value);
    }

    /** The caller's project with this id in the current table (Lookup). In
        a well-formed table a read fails only on inverted dates, and never
        when every row's dates are in order. */
    function GetProject(id: nat, userId: string): (r: Result<Option<Project>, ServiceError>)
      reads this
      ensures r == Lookup(rows, id, userId)
      ensures Valid() && r.Failure? ==> r.error == Invalid([FieldError("end_date", EndBeforeStart)])
      ensures Valid() && AllDatesInOrder(rows) ==> r.Success?
    {
      assert Valid() && FirstVisible(rows, id, userId).Some? ==>
        var p := FirstVisible(rows, id, userId).value;
        StoredBoundsHold(p.fields) && (AllDatesInOrder(rows) ==> DatesInOrder(p.fields)) by {
        if Valid() && FirstVisible(rows, id, userId).Some? {
          var p := FirstVisible(rows, id, userId).value;
          var k :| 0 <= k < |rows| && rows[k] == p;
        }
      }
      Lookup(rows, id, userId)
    }

    /** The caller's projects as listed from the current table (Listing). A
        well-formed table whose dates are all in order always lists. */
    function ListProjects(userId: string, page: int, pageSize: int, status: Option<ProjectStatus>)
      : (r: Result<ProjectList, ServiceError>)
      reads this
      requires Pagination.ValidParams(Pagination.PaginationParams(page, pageSize))
      ensures r == Listing(rows, userId, page, pageSize, status)
      ensures Valid() && AllDatesInOrder(rows) ==> r.Success?
    {
      assert Valid() && AllDatesInOrder(rows) ==> Listing(rows, userId, page, pageSize, status).Success? by {
        if Valid() && AllDatesInOrder(rows) {
          var w := Window(NewestFirst(Selected(rows, userId, status)),
                          Pagination.Offset(Pagination.PaginationParams(page, pageSize)), pageSize);
          ListedRowsMatch(rows, userId, status, Pagination.Offset(Pagination.PaginationParams(page, pageSize)), pageSize);
          RowsOfTableReadBack(rows, nextId, w);
        }
      }
      Listing(rows, userId, page, pageSize, status)
    }

    /** Applies a validated patch to the caller's project, as written: the
        patched row is stored, then rebuilt with the project model, which can
        reject dates the update model let through while the row stays
        written. An empty patch writes nothing and returns the current
        project; a patch sending created_at cannot be encoded, and a patch
        giving the row an id another row has is rejected; in those two cases
        nothing is written. */
    method UpdateProject(id: nat, userId: string, patch: ProjectPatch, now: Timestamp)
      returns (r: Result<Option<Project>, ServiceError>)
      requires Valid() && PatchBoundsHold(patch)
      modifies this
      ensures Valid()
      ensures IsEmptyPatch(patch) ==>
        r == Lookup(old(rows), id, userId) && rows == old(rows) && nextId == old(nextId)
      ensures !IsEmptyPatch(patch) && patch.columns.createdAt.Some? ==>
        r == Failure(NotSerialisable) && rows == old(rows) && nextId == old(nextId)
      ensures !IsEmptyPatch(patch) && patch.columns.createdAt.None? && IdClash(old(rows), id, userId, patch) ==>
        r == Failure(DuplicateId(patch.columns.id.value)) && rows == old(rows) && nextId == old(nextId)
      ensures !IsEmptyPatch(patch) && patch.columns.createdAt.None? && !IdClash(old(rows), id, userId, patch) ==>
        var before := FirstVisible(old(rows), id, userId);
        && rows == UpdateVisible(old(rows), id, userId, patch, now)
        && (before.None? ==> r == Success(None))
        && (before.Some? ==> Patched(before.value, patch, now) in rows)
        && (before.Some? && ReadBack(Patched(before.value, patch, now)).Success? ==>
              r == Success(Some(Patched(before.value, patch, now))))
        && (before.Some? && ReadBack(Patched(before.value, patch, now)).Failure? ==>
              r == Failure(Invalid(ReadBack(Patched(before.value, patch, now)).error)))
        && nextId == if before.Some? && patch.columns.id.Some? then NextAfter(old(nextId), patch.columns.id.value)
                     else old(nextId)
    {
      if IsEmptyPatch(patch) {
        return GetProject(id, userId);
      }
      if patch.columns.createdAt.Some? {
        return Failure(NotSerialisable);
      }
      if IdClash(rows, id, userId, patch) {
        return Failure(DuplicateId(patch.columns.id.value));
      }
      var before := FirstVisible(rows, id, userId);
      UpdateReturnsPatchedRow(rows, id, userId, patch, now);
      UpdateKeepsWellFormed(rows, nextId, id, userId, patch, now);
      rows := UpdateVisible(rows, id, userId, patch, now);
      if before.None? {
        return Success(None);
      }
      if patch.columns.id.Some? {
        nextId := NextAfter(nextId, patch.columns.id.value);
      }
      var back := ReadBack(Patched(before.value, patch, now));
      if back.Failure? {
        return Failure(Invalid(back.error));
      }
      r := Success(Some(back.value));
    }

    /** The update as evidently intended: the patched row is checked with the
        project model before anything is written, so a patch that would leave
        the dates inverted is rejected with nothing written, and a table
        whose rows all read back keeps that property. */
    method UpdateProjectChecked(id: nat, userId: string, patch: ProjectPatch, now: Timestamp)
      returns (r: Result<Option<Project>, ServiceError>)
      requires Valid() && PatchBoundsHold(patch)
      modifies this
      ensures Valid()
      ensures AllDatesInOrder(old(rows)) ==> AllDatesInOrder(rows)
      ensures IsEmptyPatch(patch) ==>
        r == Lookup(old(rows), id, userId) && rows == old(rows) && nextId == old(nextId)
      ensures !IsEmptyPatch(patch) && patch.columns.createdAt.Some? ==>
        r == Failure(NotSerialisable) && rows == old(rows) && nextId == old(nextId)
      ensures !IsEmptyPatch(patch) && patch.columns.createdAt.None? && IdClash(old(rows), id, userId, patch) ==>
        r == Failure(DuplicateId(patch.columns.id.value)) && rows == old(rows) && nextId == old(nextId)
      ensures !IsEmptyPatch(patch) && patch.columns.createdAt.None? && !IdClash(old(rows), id, userId, patch) ==>
        var before := FirstVisible(old(rows), id, userId);
        && (before.None? ==> r == Success(None) && rows == old(rows) && nextId == old(nextId))
        && (before.Some? && ReadBack(Patched(before.value, patch, now)).Failure? ==>
              && r == Failure(Invalid(ReadBack(Patched(before.value, patch, now)).error))
              && rows == old(rows) && nextId == old(nextId))
        && (before.Some? && ReadBack(Patched(before.value, patch, now)).Success? ==>
              && r == Success(Some(Patched(before.value, patch, now)))
              && rows == UpdateVisible(old(rows), id, userId, patch, now)
              && Patched(before.value, patch, now) in rows
              && nextId == if patch.columns.id.Some? then NextAfter(old(nextId), patch.columns.id.value)
                           else old(nextId))
    {
      if IsEmptyPatch(patch) {
        return GetProject(id, userId);
      }
      if patch.columns.createdAt.Some? {
        return Failure(NotSerialisable);
      }
      if IdClash(rows, id, userId, patch) {
        return Failure(DuplicateId(patch.columns.id.value));
      }
      var before := FirstVisible(rows, id, userId);
      if before.None? {
        return Success(None);
      }
      var updated := Patched(before.value, patch, now);
      var back := ReadBack(updated);
      if back.Failure? {
        return Failure(Invalid(back.error));
      }
      CheckedWrite(rows, nextId, id, userId, patch, now);
      rows, nextId := UpdateVisible(rows, id, userId, patch, now),
                      if patch.columns.id.Some? then NextAfter(nextId, patch.columns.id.value) else nextId;
      r := Success(Some(updated));
    }

    /** Deletes the caller's project; true exactly when a row was removed.
        No row is read back. */
    method DeleteProject(id: nat, userId: string) returns (deleted: bool)
      requires Valid()
      modifies this
      ensures Valid() && nextId == old(nextId)
      ensures AllDatesInOrder(old(rows)) ==> AllDatesInOrder(rows)
      ensures rows == RemoveVisible(old(rows), id, userId)
      ensures deleted <==> FirstVisible(old(rows), id, userId).Some?
      ensures GetProject(id, userId) == Success(None)
    {
      deleted := FirstVisible(rows, id, userId).Some?;
      ghost var before := rows;
      rows := RemoveVisible(rows, id, userId);
      assert forall i :: 0 <= i < |rows| ==> rows[i] in before by {
        forall i | 0 <= i < |rows| ensures rows[i] in before {
          assert rows[i] in rows;
        }
      }
      assert AllDatesInOrder(before) ==> AllDatesInOrder(rows) by {
        if AllDatesInOrder(before) {
          forall i | 0 <= i < |rows| ensures DatesInOrder(rows[i].fields) {
            var k :| 0 <= k < |before| && before[k] == rows[i];
          }
        }
      }
    }

    /** Duplicates the caller's project as a new draft. The original is read
        first: its read error, or None when it is not visible, is the result.
        A validation failure when the copied fields do not pass the create
        model, in which case nothing is written. */
    method DuplicateProject(id: nat, userId: string, newName: Option<string>, now: Timestamp)
      returns (r: Result<Option<Project>, ServiceError>)
      requires Valid()
      modifies this
      ensures Valid()
      ensures Lookup(old(rows), id, userId).Failure? ==> r == Lookup(old(rows), id, userId) && rows == old(rows)
      ensures Lookup(old(rows), id, userId) == Success(None) ==> r == Success(None) && rows == old(rows)
      ensures Lookup(old(rows), id, userId).Success? && Lookup(old(rows), id, userId).value.Some? ==>
        var original := Lookup(old(rows), id, userId).value.value;
        && (r.Failure? <==> !CreateBoundsHold(DuplicateInput(original, newName)))
        && (r.Failure? ==> r == Failure(Invalid(ValidateProjectCreate(DuplicateInput(original, newName)).error))
                           && rows == old(rows))
        && (r.Success? ==>
          && r.value.Some? && rows == old(rows) + [r.value.value]
          && r.value.value.id == old(nextId) && r.value.value.userId == userId
          && r.value.value.createdAt == now && r.value.value.updatedAt == now
          && r.value.value.fields.name == (if Truthy(newName) then newName.value else original.fields.name + CopySuffix)
          && r.value.value.fields.status == Draft
          && r.value.value.fields.description == original.fields.description
          && r.value.value.fields.customerName == original.fields.customerName
          && r.value.value.fields.siteAddress == original.fields.siteAddress
          && r.value.value.fields.startDate == original.fields.startDate
          && r.value.value.fields.endDate == original.fields.endDate
          && r.value.value.fields.metadata == original.fields.metadata)
    {
      var found := GetProject(id, userId);
      if found.Failure? || found.value.None? {
        return found;
      }
      var original := found.value.value;
      var data := RowInput(original);
      if Truthy(newName) {
        data := data.(name := newName.value);
      } else {
        data := data.(name := original.fields.name + CopySuffix);
      }
      data := data.(status := Some(StatusValue(Draft)));
      assert data == DuplicateInput(original, newName);
      var validated := ValidateProjectCreate(data);
      if validated.Failure? {
        return Failure(Invalid(validated.error));
      }
      var created := CreateProject(original.userId, validated.value, now);
      r := Success(Some(created.value));
    }
  }
}
