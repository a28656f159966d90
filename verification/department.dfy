/** `department.controller.js`: the department document, its
    administrator-only handlers, `publicize` and `list`. `create` wires in
    the ids of the categories it has `createByDepartmentArray` store. */
module Departments {
  import opened Common
  import opened Categories

  /** The fields `update` takes from `req.body`. */
  datatype DepartmentFields = DepartmentFields(code: Option<int>, name: Option<string>, comments: Option<string>)

  /** `req.body` of `create`. */
  datatype DepartmentBody = DepartmentBody(fields: DepartmentFields, categories: seq<CategoryInput>)

  /** The plain-object view of a department. */
  datatype DepartmentDoc = DepartmentDoc(fields: DepartmentFields, categories: seq<string>)

  class Department {
    var code: Option<int>
    var name: Option<string>
    var categories: seq<string>
    var comments: Option<string>

    function Doc(): DepartmentDoc
      reads this
    {
      DepartmentDoc(DepartmentFields(code, name, comments), categories)
    }

    constructor (fields: DepartmentFields, categories: seq<string>)
      ensures Doc() == DepartmentDoc(fields, categories)
    {
      code, name, comments := fields.code, fields.name, fields.comments;
      this.categories := categories;
    }
  }

  /** `create`: administrators only. The body's categories are created
      first; the department's `categories` are the ids that come back, in
      input order. If the batch rejects, the awaited rejection escapes the
      handler: no department is built and nothing is answered, while the
      categories that did save stay stored. */
  method Create(user: Principal, body: DepartmentBody, saves: seq<SaveResult>)
    returns (err: Option<ApiError>, escaped: Option<ApiError>, department: Department?, stored: seq<CategoryDoc>)
    requires |saves| == |body.categories|
    ensures err == AdminGuard(user)
    ensures !user.isAdmin ==> escaped.None? && department == null && stored == []
    ensures user.isAdmin ==> stored == StoredDocs(body.categories, saves)
    ensures user.isAdmin ==> (department != null <==> AllSaved(saves)) && (escaped.Some? <==> !AllSaved(saves))
    ensures escaped.Some? ==> escaped.value.status == BadGateway
    ensures escaped.Some? ==> exists k :: FirstFailure(saves, k) && escaped.value == CreationFailed(saves[k].error)
    ensures department != null ==>
      && fresh(department)
      && department.Doc().fields == body.fields
      && |department.categories| == |body.categories|
      && forall i :: 0 <= i < |saves| ==> department.categories[i] == saves[i].id
  {
    err := AdminGuard(user);
    if err.Some? {
      return err, None, null, [];
    }
    var ids;
    ids, stored := CreateByDepartmentArray(body.categories, saves);
    if ids.Err? {
      return err, Some(ids.error), null, stored;
    }
    escaped := None;
    department := new Department(body.fields, ids.value);
  }

  /** `update`: administrators only; exactly code, name and comments are
      overwritten, the category list is kept. */
  method Update(user: Principal, department: Department, body: DepartmentFields) returns (err: Option<ApiError>)
    modifies department
    ensures err == AdminGuard(user)
    ensures user.isAdmin ==> department.Doc() == old(department.Doc()).(fields := body)
    ensures !user.isAdmin ==> unchanged(department)
  {
    err := AdminGuard(user);
    if err.Some? {
      return;
    }
    department.code := body.code;
    department.name := body.name;
    department.comments := body.comments;
  }

  /** `remove`: only an administrator removes the department. */
  method Remove(user: Principal, department: Department) returns (err: Option<ApiError>, deleted: Option<DepartmentDoc>)
    ensures err == AdminGuard(user)
    ensures deleted.Some? <==> user.isAdmin
    ensures deleted.Some? ==> deleted.value == department.Doc()
  {
    err := AdminGuard(user);
    if err.Some? {
      return err, None;
    }
    deleted := Some(department.Doc());
  }

  /** `publicize`: delete `comments` from every department, then unwrap a
      one-element array. */
  method Publicize(departments: seq<Department>) returns (u: Unwrapped<Department>)
    modifies set d | d in departments
    ensures u == Unwrap(departments)
    ensures forall d :: d in departments ==>
      d.Doc() == old(d.Doc()).(fields := old(d.Doc()).fields.(comments := None))
  {
    for i := 0 to |departments|
      invariant forall d :: d in departments[..i] ==>
        d.Doc() == old(d.Doc()).(fields := old(d.Doc()).fields.(comments := None))
      invariant forall d :: d in departments && d !in departments[..i] ==> d.Doc() == old(d.Doc())
    {
      departments[i].comments := None;
    }
    assert departments[..|departments|] == departments;
    u := Unwrap(departments);
  }

  /** `{ "departments": ... }`. */
  datatype DepartmentsReply = DepartmentsReply(departments: seq<Department>)

  /** `list`: fuzzy search on the name only when `q` is given; both paths
      answer `{departments: publicize(new Array(found))}`, which, as
      written, is the found list itself. */
  method List(q: Option<string>, limit: Option<int>, skip: Option<int>, found: seq<Department>)
    returns (query: ListQuery, reply: DepartmentsReply)
    ensures query.Fuzzy? <==> q.Some?
    ensures query.page == Page(limit.GetOr(50), skip.GetOr(0))
    ensures reply.departments == found
  {
    query := ChooseQuery(q, limit, skip);
    var u := Unwrap([found]);
    reply := DepartmentsReply(u.item);
  }
}
