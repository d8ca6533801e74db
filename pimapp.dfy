/**
 * The database-backed project tracker. Request bodies are checked against
 * declared field bounds before a handler runs; the handlers then read,
 * change or remove the first `pim` row that matches a key. The table is
 * modelled as the sequence of its rows.
 */
module PimApp {
  import opened Results

  /** A row of the `pim` table. */
  datatype Pim = Pim(id: int, projectNumber: string, team: string, engineer: string,
                     customer: string, projectName: string, progress: int)

  /** The body of a create request. */
  datatype ProjectRequest = ProjectRequest(projectNumber: string, team: string, engineer: string,
                                           customer: string, projectName: string, progress: int)

  /** The body of a progress update. */
  datatype ProjectUpdate = ProjectUpdate(projectNumber: string, progress: int)

  /** The places a validation error can point at: a body field or a path parameter. */
  datatype Field =
    | ProjectNumberField | TeamField | EngineerField | CustomerField | ProjectNameField | ProgressField
    | ProjectIdParam | ProjectNumberParam

  /** Validation errors (answered with status 422) name every failing place; a missing row is NotFound (status 404). */
  datatype ApiError = Invalid(fields: set<Field>) | NotFound

  predicate LengthWithin(s: string, lo: nat, hi: nat)
  {
    lo <= |s| <= hi
  }

  function Check(ok: bool, f: Field): set<Field>
  {
    if ok then {} else {f}
  }

  /** The fields of a create body that break their declared bounds. */
  function RequestViolations(r: ProjectRequest): (v: set<Field>)
    ensures v <= {ProjectNumberField, TeamField, EngineerField, CustomerField, ProjectNameField, ProgressField}
  {
    Check(LengthWithin(r.projectNumber, 14, 17), ProjectNumberField) +
    Check(LengthWithin(r.team, 2, 3), TeamField) +
    Check(LengthWithin(r.engineer, 3, 50), EngineerField) +
    Check(LengthWithin(r.customer, 3, 50), CustomerField) +
    Check(LengthWithin(r.projectName, 1, 100), ProjectNameField) +
    Check(0 <= r.progress <= 100, ProgressField)
  }

  /** The fields of an update body that break their declared bounds. */
  function UpdateViolations(u: ProjectUpdate): (v: set<Field>)
    ensures v <= {ProjectNumberField, ProgressField}
  {
    Check(LengthWithin(u.projectNumber, 14, 17), ProjectNumberField) +
    Check(0 <= u.progress <= 100, ProgressField)
  }

  /** The request is accepted exactly when every field is within its bounds, and each violation names its field. */
  lemma RequestValidation(r: ProjectRequest)
    ensures RequestViolations(r) == {} <==>
      && 14 <= |r.projectNumber| <= 17
      && 2 <= |r.team| <= 3
      && 3 <= |r.engineer| <= 50
      && 3 <= |r.customer| <= 50
      && 1 <= |r.projectName| <= 100
      && 0 <= r.progress <= 100
    ensures ProjectNumberField in RequestViolations(r) <==> !(14 <= |r.projectNumber| <= 17)
    ensures TeamField in RequestViolations(r) <==> !(2 <= |r.team| <= 3)
    ensures EngineerField in RequestViolations(r) <==> !(3 <= |r.engineer| <= 50)
    ensures CustomerField in RequestViolations(r) <==> !(3 <= |r.customer| <= 50)
    ensures ProjectNameField in RequestViolations(r) <==> !(1 <= |r.projectName| <= 100)
    ensures ProgressField in RequestViolations(r) <==> !(0 <= r.progress <= 100)
  {
  }

  /** The update body is accepted exactly when its number has 14 to 17 characters and its progress is 0 to 100. */
  lemma UpdateValidation(u: ProjectUpdate)
    ensures UpdateViolations(u) == {} <==> 14 <= |u.projectNumber| <= 17 && 0 <= u.progress <= 100
    ensures ProjectNumberField in UpdateViolations(u) <==> !(14 <= |u.projectNumber| <= 17)
    ensures ProgressField in UpdateViolations(u) <==> !(0 <= u.progress <= 100)
  {
  }

  /** The bounds at their edges: a progress of 150 or a 13-character number is refused; 0, 100, 14 and 17 are accepted. */
  lemma ValidationEdges(r: ProjectRequest)
    requires RequestViolations(r) == {}
    ensures RequestViolations(r.(progress := 150)) == {ProgressField}
    ensures RequestViolations(r.(progress := 0)) == {} && RequestViolations(r.(progress := 100)) == {}
    ensures RequestViolations(r.(projectNumber := "QKPH-TEST-001")) == {ProjectNumberField}
    ensures RequestViolations(r.(projectNumber := "QKPH-TEST-0001")) == {}
    ensures RequestViolations(r.(projectNumber := "QKPH-TEST-0001-AB")) == {}
  {
  }

  /** The row `PIM(**project_request.model_dump())` with the id the database gives it. */
  function RowOf(r: ProjectRequest, id: int): Pim
  {
    Pim(id, r.projectNumber, r.team, r.engineer, r.customer, r.projectName, r.progress)
  }

  /** A row whose fields keep the bounds a create body is checked against. */
  predicate WithinBounds(p: Pim)
  {
    RequestViolations(ProjectRequest(p.projectNumber, p.team, p.engineer, p.customer, p.projectName, p.progress)) == {}
  }

  /** The key of a `filter(...).first()` query. */
  datatype Key = ById(id: int) | ByNumber(number: string)

  predicate Hits(p: Pim, key: Key)
  {
    match key
    case ById(id) => p.id == id
    case ByNumber(number) => p.projectNumber == number
  }

  /** The position of the first row the key hits; project numbers are compared exactly. */
  function FindFirst(rows: seq<Pim>, key: Key): (r: Option<nat>)
    ensures r.None? <==> forall i :: 0 <= i < |rows| ==> !Hits(rows[i], key)
    ensures r.Some? ==>
      r.value < |rows| && Hits(rows[r.value], key) && forall i :: 0 <= i < r.value ==> !Hits(rows[i], key)
  {
    if rows == [] then None
    else if Hits(rows[0], key) then Some(0)
    else
      match FindFirst(rows[1..], key)
      case None => None
      case Some(k) => Some(k + 1)
  }

  /** No two rows share an id. */
  ghost predicate DistinctIds(rows: seq<Pim>)
  {
    forall i, j :: 0 <= i < j < |rows| ==> rows[i].id != rows[j].id
  }

  class ProjectStore {
    var rows: seq<Pim>

    /** The ids are the table's primary key and count from 1; every row went through request validation. */
    ghost predicate Valid()
      reads this
    {
      DistinctIds(rows) && forall i :: 0 <= i < |rows| ==> rows[i].id > 0 && WithinBounds(rows[i])
    }

    constructor ()
      ensures Valid() && rows == []
    {
      rows := [];
    }

    /** Every row. */
    function ReadAll(): (r: seq<Pim>)
      reads this
      ensures r == rows
    {
      rows
    }

    /** The row with the given id; the id must be positive. */
    function ReadProjectById(projectId: int): (r: Result<Pim, ApiError>)
      reads this
      ensures r == Err(Invalid({ProjectIdParam})) <==> projectId <= 0
      ensures r == Err(NotFound) <==> projectId > 0 && forall i :: 0 <= i < |rows| ==> rows[i].id != projectId
      ensures r.Ok? <==> projectId > 0 && exists i :: 0 <= i < |rows| && rows[i].id == projectId
      ensures r.Ok? ==> r.value in rows && r.value.id == projectId
      ensures Valid() && r.Ok? ==> forall i :: 0 <= i < |rows| && rows[i].id == projectId ==> rows[i] == r.value
    {
      if projectId <= 0 then Err(Invalid({ProjectIdParam}))
      else
        match FindFirst(rows, ById(projectId))
        case None => Err(NotFound)
        case Some(k) => Ok(rows[k])
    }

    /** The first row whose number equals `projectNumber` exactly; the number must have 14 to 17 characters. */
    function ReadProjectByNumber(projectNumber: string): (r: Result<Pim, ApiError>)
      reads this
      ensures r == Err(Invalid({ProjectNumberParam})) <==> !LengthWithin(projectNumber, 14, 17)
      ensures r == Err(NotFound) <==>
        LengthWithin(projectNumber, 14, 17) && forall i :: 0 <= i < |rows| ==> rows[i].projectNumber != projectNumber
      ensures r.Ok? <==>
        LengthWithin(projectNumber, 14, 17) && exists i :: 0 <= i < |rows| && rows[i].projectNumber == projectNumber
      ensures r.Ok? ==>
        exists k :: 0 <= k < |rows| && rows[k] == r.value && r.value.projectNumber == projectNumber &&
          forall i :: 0 <= i < k ==> rows[i].projectNumber != projectNumber
    {
      if !LengthWithin(projectNumber, 14, 17) then Err(Invalid({ProjectNumberParam}))
      else
        match FindFirst(rows, ByNumber(projectNumber))
        case None => Err(NotFound)
        case Some(k) => Ok(rows[k])
    }

    /**
     * Adds the validated request as one new row under the fresh id the
     * database assigns; a body that breaks its bounds changes nothing.
     */
    method CreateProject(request: ProjectRequest, freshId: int) returns (err: Option<ApiError>)
      requires Valid()
      requires freshId > 0 && forall i :: 0 <= i < |rows| ==> rows[i].id != freshId
      modifies this
      ensures Valid()
      ensures RequestViolations(request) != {} ==> err == Some(Invalid(RequestViolations(request))) && rows == old(rows)
      ensures RequestViolations(request) == {} ==> err == None && rows == old(rows) + [RowOf(request, freshId)]
    {
      var violations := RequestViolations(request);
      if violations != {} {
        return Some(Invalid(violations));
      }
      rows := rows + [RowOf(request, freshId)];
      return None;
    }

    /**
     * Sets the progress of the first row whose number equals the path's
     * number. The body's own number is validated but not used for the lookup.
     */
    method UpdateProgress(update: ProjectUpdate, projectNumber: string) returns (err: Option<ApiError>)
      requires Valid()
      modifies this
      ensures Valid()
      ensures var violations := Check(LengthWithin(projectNumber, 14, 17), ProjectNumberParam) + UpdateViolations(update);
        if violations != {} then err == Some(Invalid(violations)) && rows == old(rows)
        else match FindFirst(old(rows), ByNumber(projectNumber))
          case None => err == Some(NotFound) && rows == old(rows)
          case Some(k) => err == None && rows == old(rows)[k := old(rows)[k].(progress := update.progress)]
    {
      var violations := Check(LengthWithin(projectNumber, 14, 17), ProjectNumberParam) + UpdateViolations(update);
      if violations != {} {
        return Some(Invalid(violations));
      }
      UpdateValidation(update);
      match FindFirst(rows, ByNumber(projectNumber))
      case None =>
        return Some(NotFound);
      case Some(k) =>
        rows := rows[k := rows[k].(progress := update.progress)];
        return None;
    }

    /** Removes the row with the given id; the id must be positive. */
    method DeleteProject(projectId: int) returns (err: Option<ApiError>)
      requires Valid()
      modifies this
      ensures Valid()
      ensures projectId <= 0 ==> err == Some(Invalid({ProjectIdParam})) && rows == old(rows)
      ensures projectId > 0 ==>
        match FindFirst(old(rows), ById(projectId))
        case None => err == Some(NotFound) && rows == old(rows)
        case Some(k) => err == None && rows == old(rows)[..k] + old(rows)[k + 1..]
    {
      if projectId <= 0 {
        return Some(Invalid({ProjectIdParam}));
      }
      match FindFirst(rows, ById(projectId))
      case None =>
        return Some(NotFound);
      case Some(k) =>
        ghost var before := rows;
        rows := rows[..k] + rows[k + 1..];
        assert forall i :: 0 <= i < |rows| ==> rows[i] == before[if i < k then i else i + 1];
        return None;
    }
  }

  /** A created row is found under its fresh id, at the end; lookups that found a row before still find the same one. */
  lemma {:induction false} LookupAfterCreate(rows: seq<Pim>, p: Pim, key: Key)
    requires forall i :: 0 <= i < |rows| ==> rows[i].id != p.id
    ensures FindFirst(rows + [p], ById(p.id)) == Some(|rows|)
    ensures FindFirst(rows + [p], key) ==
      match FindFirst(rows, key)
      case Some(k) => Some(k)
      case None => if Hits(p, key) then Some(|rows|) else None
  {
    var s := rows + [p];
    assert forall i :: 0 <= i < |rows| ==> s[i] == rows[i];
    assert s[|rows|] == p;
  }

  /**
   * After the row at `k` is deleted, its id is no longer found, and every
   * other row is still found under its id, unchanged, one slot earlier when
   * it came after `k`.
   */
  lemma {:induction false} LookupAfterDelete(rows: seq<Pim>, k: nat, j: nat)
    requires DistinctIds(rows) && k < |rows| && j < |rows|
    ensures FindFirst(rows[..k] + rows[k + 1..], ById(rows[k].id)) == None
    ensures j != k ==> FindFirst(rows[..k] + rows[k + 1..], ById(rows[j].id)) == Some(if j < k then j else j - 1)
  {
    var s := rows[..k] + rows[k + 1..];
    assert forall i :: 0 <= i < |s| ==> s[i] == rows[if i < k then i else i + 1];
    if j != k {
      var m := if j < k then j else j - 1;
      assert s[m] == rows[j];
    }
  }

  /** A progress update keeps every id in its slot, so lookups by id find the same slots as before. */
  lemma {:induction false} LookupAfterUpdate(rows: seq<Pim>, k: nat, progress: int, id: int)
    requires k < |rows|
    ensures FindFirst(rows[k := rows[k].(progress := progress)], ById(id)) == FindFirst(rows, ById(id))
  {
    var s := rows[k := rows[k].(progress := progress)];
    assert forall i :: 0 <= i < |s| ==> s[i].id == rows[i].id;
  }
}
