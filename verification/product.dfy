/** `product.controller.js`: the product document, the administrator-only
    handlers that build, overwrite and remove it, and `publicize`, which
    strips `comments` and `taxExempt`. */
module Products {
  import opened Common

  /** The eight fields `create` and `update` take from `req.body`. */
  datatype ProductFields = ProductFields(
    tag: Option<int>, name: Option<string>, description: Option<string>, category: Option<string>,
    price: Option<int>, images: Option<seq<string>>, taxExempt: Option<string>, comments: Option<string>)

  /** The plain-object view of a product. */
  datatype ProductDoc = ProductDoc(fields: ProductFields, createdAt: int)

  class Product {
    var tag: Option<int>
    var name: Option<string>
    var description: Option<string>
    var category: Option<string>
    var price: Option<int>
    var images: Option<seq<string>>
    var taxExempt: Option<string>
    var comments: Option<string>
    var createdAt: int

    function Fields(): ProductFields
      reads this
    {
      ProductFields(tag, name, description, category, price, images, taxExempt, comments)
    }

    function Doc(): ProductDoc
      reads this
    {
      ProductDoc(Fields(), createdAt)
    }

    constructor (body: ProductFields, now: int)
      ensures Doc() == ProductDoc(body, now)
    {
      tag, name, description, category := body.tag, body.name, body.description, body.category;
      price, images, taxExempt, comments := body.price, body.images, body.taxExempt, body.comments;
      createdAt := now;
    }

    /** The overwrite in `update`: exactly the eight body fields. */
    method Overwrite(body: ProductFields)
      modifies this
      ensures Doc() == old(Doc()).(fields := body)
    {
      tag := body.tag;
      name := body.name;
      description := body.description;
      category := body.category;
      price := body.price;
      images := body.images;
      taxExempt := body.taxExempt;
      comments := body.comments;
    }
  }

  /** `create`: an administrator gets a product built from the eight body
      fields; anyone else gets UNAUTHORIZED and nothing is built. */
  method Create(user: Principal, body: ProductFields, now: int) returns (err: Option<ApiError>, product: Product?)
    ensures err == AdminGuard(user)
    ensures product == null <==> !user.isAdmin
    ensures product != null ==> fresh(product) && product.Doc() == ProductDoc(body, now)
  {
    err := AdminGuard(user);
    if err.Some? {
      return err, null;
    }
    product := new Product(body, now);
  }

  /** `update`: an administrator overwrites the eight fields; anyone else
      gets UNAUTHORIZED and the product is untouched. */
  method Update(user: Principal, product: Product, body: ProductFields) returns (err: Option<ApiError>)
    modifies product
    ensures err == AdminGuard(user)
    ensures user.isAdmin ==> product.Doc() == old(product.Doc()).(fields := body)
    ensures !user.isAdmin ==> unchanged(product)
  {
    err := AdminGuard(user);
    if err.Some? {
      return;
    }
    product.Overwrite(body);
  }

  /** `remove`: only an administrator removes the product, and gets it back. */
  method Remove(user: Principal, product: Product) returns (err: Option<ApiError>, deleted: Option<ProductDoc>)
    ensures err == AdminGuard(user)
    ensures deleted.Some? <==> user.isAdmin
    ensures deleted.Some? ==> deleted.value == product.Doc()
  {
    err := AdminGuard(user);
    if err.Some? {
      return err, None;
    }
    deleted := Some(product.Doc());
  }

  /** `publicize`: delete `comments` and `taxExempt` from every product,
      then unwrap a one-element array. */
  method Publicize(products: seq<Product>) returns (u: Unwrapped<Product>)
    modifies set p | p in products
    ensures u == Unwrap(products)
    ensures forall p :: p in products ==>
      p.Doc() == old(p.Doc()).(fields := old(p.Fields()).(taxExempt := None, comments := None))
  {
    for i := 0 to |products|
      invariant forall p :: p in products[..i] ==>
        p.Doc() == old(p.Doc()).(fields := old(p.Fields()).(taxExempt := None, comments := None))
      invariant forall p :: p in products && p !in products[..i] ==> p.Doc() == old(p.Doc())
    {
      products[i].comments := None;
      products[i].taxExempt := None;
    }
    assert products[..|products|] == products;
    u := Unwrap(products);
  }

  /** `list`, as written: `publicize(new Array(products))` sees a single
      element, the result list, which has no `comments` or `taxExempt`
      property; so nothing is deleted and the list comes back as found. */
  method List(found: seq<Product>, limit: Option<int>, skip: Option<int>) returns (page: Page, body: seq<Product>)
    ensures page == Paging(limit, skip)
    ensures body == found
  {
    page := Paging(limit, skip);
    var wrapped := [found];
    var u := Unwrap(wrapped);
    body := u.item;
  }

  /** `list` as evidently intended: every listed product is redacted. */
  method ListRedacted(found: seq<Product>, limit: Option<int>, skip: Option<int>)
    returns (page: Page, body: Unwrapped<Product>)
    modifies set p | p in found
    ensures page == Paging(limit, skip)
    ensures body == Unwrap(found)
    ensures forall p :: p in found ==> p.comments.None? && p.taxExempt.None?
    ensures forall p :: p in found ==>
      p.Doc() == old(p.Doc()).(fields := old(p.Fields()).(taxExempt := None, comments := None))
  {
    page := Paging(limit, skip);
    body := Publicize(found);
  }
}
