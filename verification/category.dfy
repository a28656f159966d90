/** `category.controller.js`: the category document, its administrator-only
    handlers, `publicize`, `list`, and the batch creation a department uses
    (`createCategory`, `createByDepartmentArray`). Database saves are
    oracles: a save either succeeds with a new id or fails with a message. */
module Categories {
  import opened Common

  /** The three fields `create` and `update` take from `req.body`. */
  datatype CategoryFields = CategoryFields(code: Option<int>, name: Option<string>, comments: Option<string>)

  /** The plain-object view of a category. */
  datatype CategoryDoc = CategoryDoc(id: string, fields: CategoryFields)

  /** An element of a department's `categories` list. */
  datatype CategoryInput = CategoryInput(code: Option<int>, name: Option<string>)

  /** What one `category.save(...)` did. */
  datatype SaveResult = Saved(id: string) | SaveFailed(error: string)

  class Category {
    const id: string
    var code: Option<int>
    var name: Option<string>
    var comments: Option<string>

    function Doc(): CategoryDoc
      reads this
    {
      CategoryDoc(id, CategoryFields(code, name, comments))
    }

    constructor (id: string, body: CategoryFields)
      ensures Doc() == CategoryDoc(id, body)
    {
      this.id := id;
      code, name, comments := body.code, body.name, body.comments;
    }
  }

  /** `create`: administrators only; the category gets code, name and
      comments from the body. */
  method Create(user: Principal, body: CategoryFields, id: string) returns (err: Option<ApiError>, category: Category?)
    ensures err == AdminGuard(user)
    ensures category == null <==> !user.isAdmin
    ensures category != null ==> fresh(category) && category.Doc() == CategoryDoc(id, body)
  {
    err := AdminGuard(user);
    if err.Some? {
      return err, null;
    }
    category := new Category(id, body);
  }

  /** `update`: administrators only; exactly code, name and comments are
      overwritten. */
  method Update(user: Principal, category: Category, body: CategoryFields) returns (err: Option<ApiError>)
    modifies category
    ensures err == AdminGuard(user)
    ensures user.isAdmin ==> category.Doc() == CategoryDoc(category.id, body)
    ensures !user.isAdmin ==> unchanged(category)
  {
    err := AdminGuard(user);
    if err.Some? {
      return;
    }
    category.code := body.code;
    category.name := body.name;
    category.comments := body.comments;
  }

  /** `remove`: only an administrator removes the category. */
  method Remove(user: Principal, category: Category) returns (err: Option<ApiError>, deleted: Option<CategoryDoc>)
    ensures err == AdminGuard(user)
    ensures deleted.Some? <==> user.isAdmin
    ensures deleted.Some? ==> deleted.value == category.Doc()
  {
    err := AdminGuard(user);
    if err.Some? {
      return err, None;
    }
    deleted := Some(category.Doc());
  }

  /** `publicize`: delete `comments` from every category, then unwrap a
      one-element array. */
  method Publicize(categories: seq<Category>) returns (u: Unwrapped<Category>)
    modifies set c | c in categories
    ensures u == Unwrap(categories)
    ensures forall c :: c in categories ==> c.Doc() == old(c.Doc()).(fields := old(c.Doc()).fields.(comments := None))
  {
    for i := 0 to |categories|
      invariant forall c :: c in categories[..i] ==>
        c.Doc() == old(c.Doc()).(fields := old(c.Doc()).fields.(comments := None))
      invariant forall c :: c in categories && c !in categories[..i] ==> c.Doc() == old(c.Doc())
    {
      categories[i].comments := None;
    }
    assert categories[..|categories|] == categories;
    u := Unwrap(categories);
  }

  /** `{ "categories": ... }`. */
  datatype CategoriesReply = CategoriesReply(categories: seq<Category>)

  /** `list`: fuzzy search on the name only when `q` is given; both paths
      answer `{categories: publicize(new Array(found))}`, which, as written,
      is the found list itself. */
  method List(q: Option<string>, limit: Option<int>, skip: Option<int>, found: seq<Category>)
    returns (query: ListQuery, reply: CategoriesReply)
    ensures query.Fuzzy? <==> q.Some?
    ensures query.page == Page(limit.GetOr(50), skip.GetOr(0))
    ensures reply.categories == found
  {
    query := ChooseQuery(q, limit, skip);
    var u := Unwrap([found]);
    reply := CategoriesReply(u.item);
  }

  const NotFullyCreated := ApiError("Categories were not fully created.", BadGateway)

  /** The rejection of a failed `createCategory`: never the count-check error. */
  function CreationFailed(error: string): (e: ApiError)
    ensures e.status == BadGateway && e != NotFullyCreated
  {
    var message := "createCategory Failed " + error;
    assert message[0] == 'c' && NotFullyCreated.message[0] == 'C';
    ApiError(message, BadGateway)
  }

  /** `createCategory`: a category built from code and name only (no
      comments); a failed save rejects with BAD_GATEWAY. */
  function CreateCategory(c: CategoryInput, save: SaveResult): (r: Result<CategoryDoc>)
    ensures r.Ok? <==> save.Saved?
    ensures r.Ok? ==> r.value.id == save.id && r.value.fields == CategoryFields(c.code, c.name, None)
    ensures r.Err? ==> r.error.status == BadGateway && r.error == CreationFailed(save.error)
  {
    match save
    case Saved(id) => Ok(CategoryDoc(id, CategoryFields(c.code, c.name, None)))
    case SaveFailed(e) => Err(CreationFailed(e))
  }

  predicate AllSaved(saves: seq<SaveResult>) {
    forall i :: 0 <= i < |saves| ==> saves[i].Saved?
  }

  /** `k` is the first failed save. */
  predicate FirstFailure(saves: seq<SaveResult>, k: int) {
    0 <= k < |saves| && saves[k].SaveFailed? && forall j :: 0 <= j < k ==> saves[j].Saved?
  }

  /** The categories actually stored: one per successful save, in input order. */
  function StoredDocs(data: seq<CategoryInput>, saves: seq<SaveResult>): (docs: seq<CategoryDoc>)
    requires |data| == |saves|
    ensures |docs| <= |data|
    ensures AllSaved(saves) ==> |docs| == |data|
  {
    if data == [] then []
    else
      var rest := StoredDocs(data[..|data| - 1], saves[..|saves| - 1]);
      match CreateCategory(data[|data| - 1], saves[|saves| - 1])
      case Ok(doc) => rest + [doc]
      case Err(_) => rest
  }

  lemma StoredDocsSnoc(data: seq<CategoryInput>, saves: seq<SaveResult>, i: nat)
    requires |data| == |saves| && i < |data|
    ensures StoredDocs(data[..i + 1], saves[..i + 1]) ==
      StoredDocs(data[..i], saves[..i]) + match CreateCategory(data[i], saves[i])
        case Ok(doc) => [doc]
        case Err(_) => []
  {
    var d, sv := data[..i + 1], saves[..i + 1];
    assert d[..i] == data[..i] && sv[..i] == saves[..i];
  }

  /** `createByDepartmentArray`, run one category after another: it resolves
      with the new ids in input order when every save succeeds, and
      otherwise rejects with the first failure's BAD_GATEWAY. The count
      check never fires, and categories saved before or after a failure
      stay stored. */
  method CreateByDepartmentArray(data: seq<CategoryInput>, saves: seq<SaveResult>)
    returns (r: Result<seq<string>>, stored: seq<CategoryDoc>)
    requires |saves| == |data|
    ensures r.Ok? <==> AllSaved(saves)
    ensures r.Ok? ==> |r.value| == |data| && forall i :: 0 <= i < |data| ==> r.value[i] == saves[i].id
    ensures r.Err? ==> exists k :: FirstFailure(saves, k) && r.error == CreationFailed(saves[k].error)
    ensures r != Err(NotFullyCreated)
    ensures stored == StoredDocs(data, saves)
  {
    var list := data;
    var results: seq<string> := [];
    var failure: Option<ApiError> := None;
    ghost var firstBad := 0;
    stored := [];
    for i := 0 to |list|
      invariant stored == StoredDocs(data[..i], saves[..i])
      invariant failure.None? ==> |results| == i
      invariant failure.None? ==> forall j :: 0 <= j < i ==> saves[j].Saved? && results[j] == saves[j].id
      invariant failure.Some? ==>
        (FirstFailure(saves, firstBad) && firstBad < i && failure.value == CreationFailed(saves[firstBad].error))
    {
      StoredDocsSnoc(data, saves, i);
      match CreateCategory(list[i], saves[i]) {
        case Ok(doc) =>
          results := results + [doc.id];
          stored := stored + [doc];
        case Err(e) =>
          if failure.None? {
            failure := Some(e);
            firstBad := i;
          }
      }
    }
    assert data[..|data|] == data && saves[..|saves|] == saves;
    if failure.Some? {
      assert FirstFailure(saves, firstBad);
      r := Err(failure.value);
    } else {
      r := if |results| == |data| then Ok(results) else Err(NotFullyCreated);
    }
  }
}
