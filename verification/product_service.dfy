/** `ProductService`: the goods markets list. A product is created together
    with its discussion thread (a comment of scope PRODUCT) and its photos;
    updates change only the fields the request names. */
module ProductService {
  import opened Common
  import opened Json
  import opened Strings
  import opened Entities
  import opened SuccessResponse
  import opened Enrich

  const CategoryMissing: string := "category not found"
  const SupCategoryMissing: string := "supcategory not found"

  /** The ids the relation checks can find: the rows of the `category` and
      `sup_category` tables. */
  datatype Relations = Relations(categories: set<string>, supCategories: set<string>)

  /** A truthy id must name an existing row; a falsy one is not looked up. */
  predicate Resolves(ids: set<string>, f: Field<string>) {
    Sent(f) ==> f.value in ids
  }

  /** `ensureRelationsExist`: the category, then the sup-category. */
  function EnsureRelations(rel: Relations, categoryId: Field<string>, supCategoryId: Field<string>): (r: Result<Unit>)
    ensures r.Ok? <==> Resolves(rel.categories, categoryId) && Resolves(rel.supCategories, supCategoryId)
    ensures !Resolves(rel.categories, categoryId) ==> r == Err(NotFound(CategoryMissing))
    ensures Resolves(rel.categories, categoryId) && !Resolves(rel.supCategories, supCategoryId) ==>
      r == Err(NotFound(SupCategoryMissing))
  {
    if !Resolves(rel.categories, categoryId) then Err(NotFound(CategoryMissing))
    else if !Resolves(rel.supCategories, supCategoryId) then Err(NotFound(SupCategoryMissing))
    else Ok(Unit)
  }

  /** The body of `POST /product` as the service reads it. */
  datatype CreateDto = CreateDto(
    name: string,
    categoryId: string,
    supCategoryId: Field<string>,
    price: string,
    amount: Field<int>,
    description: Field<string>)

  /** The row `createForMarket` leaves in the table: the created product, with
      its thread linked; `isActive` takes the column default. */
  function NewProduct(dto: CreateDto, marketId: string, id: string, commentId: string): Product {
    Product(
      id,
      Trim(dto.name),
      dto.categoryId,
      dto.supCategoryId.OrNull(),
      marketId,
      dto.price,
      dto.amount.OrNull(),
      dto.description.OrNull(),
      Some(commentId),
      true)
  }

  /** The thread created with the product. */
  function NewThread(commentId: string, productId: string): Comment {
    Comment(commentId, ProductScope, None, Some(productId))
  }

  /** A created product has a trimmed name; its sup-category and description are
      null unless sent; the market is the caller; it is active, linked to its
      thread, and the thread passes the comment table's check. */
  lemma CreatedProductShape(dto: CreateDto, marketId: string, id: string, commentId: string)
    ensures var p := NewProduct(dto, marketId, id, commentId);
      && Trimmed(p.name) && Trim(p.name) == p.name
      && (p.supCategoryId.Some? <==> dto.supCategoryId.Given?)
      && (p.description.Some? <==> dto.description.Given?)
      && p.marketId == marketId && p.categoryId == dto.categoryId && p.price == dto.price
      && p.isActive && p.commentId == Some(commentId)
    ensures NewThread(commentId, id).Checked() && NewThread(commentId, id).productId == Some(id)
  {
    TrimIdempotent(dto.name);
  }

  /** The body of `PATCH /product/:id` as the service reads it (`marketId` and
      `photoId` are accepted but never assigned). */
  datatype UpdateDto = UpdateDto(
    name: Field<string>,
    categoryId: Field<string>,
    supCategoryId: Field<string>,
    price: Field<string>,
    amount: Field<int>,
    description: Field<string>,
    isActive: Field<bool>)

  /** The field assignments of `updateWithPhoto`, one per field: a field the
      request defines is replaced (the name trimmed), any other is kept. A `null`
      name never gets here (its `trim()` throws), and a `null` category, price
      or `isActive` is refused by the save. */
  function WithName(p: Product, f: Field<string>): (r: Product)
    ensures r == p.(name := r.name)
    ensures !f.Given? ==> r == p
  {
    if f.Given? then p.(name := Trim(f.value)) else p
  }

  function WithCategory(p: Product, f: Field<string>): (r: Product)
    ensures r == p.(categoryId := r.categoryId)
    ensures !f.Given? ==> r == p
  {
    if f.Given? then p.(categoryId := f.value) else p
  }

  function WithSupCategory(p: Product, f: Field<string>): (r: Product)
    ensures r == p.(supCategoryId := r.supCategoryId)
    ensures f.Absent? ==> r == p
  {
    if f.Defined() then p.(supCategoryId := f.OrNull()) else p
  }

  function WithPrice(p: Product, f: Field<string>): (r: Product)
    ensures r == p.(price := r.price)
    ensures !f.Given? ==> r == p
  {
    if f.Given? then p.(price := f.value) else p
  }

  function WithAmount(p: Product, f: Field<int>): (r: Product)
    ensures r == p.(amount := r.amount)
    ensures f.Absent? ==> r == p
  {
    if f.Defined() then p.(amount := f.OrNull()) else p
  }

  function WithDescription(p: Product, f: Field<string>): (r: Product)
    ensures r == p.(description := r.description)
    ensures f.Absent? ==> r == p
  {
    if f.Defined() then p.(description := f.OrNull()) else p
  }

  function WithActive(p: Product, f: Field<bool>): (r: Product)
    ensures r == p.(isActive := r.isActive)
    ensures !f.Given? ==> r == p
  {
    if f.Given? then p.(isActive := f.value) else p
  }

  /** The row after all the assignments, in the order the service makes them. */
  function Edited(p: Product, dto: UpdateDto): Product {
    var p1 := WithSupCategory(WithCategory(WithName(p, dto.name), dto.categoryId), dto.supCategoryId);
    var p2 := WithDescription(WithAmount(WithPrice(p1, dto.price), dto.amount), dto.description);
    WithActive(p2, dto.isActive)
  }

  /** A `null` in a NOT NULL column: the save fails. */
  predicate NullsRequired(dto: UpdateDto) {
    dto.categoryId.Null? || dto.price.Null? || dto.isActive.Null?
  }

  /** The outcome of `updateWithPhoto` for the stored row: NotFound, a missing
      relation, a `TypeError` for a `null` name, a NOT NULL violation on save,
      or the edited row. */
  function UpdateOutcome(products: map<string, Product>, rel: Relations, id: string, dto: UpdateDto): (r: Result<Product>)
    ensures id !in products ==> r == Err(NotFound("Not found"))
    ensures id in products && EnsureRelations(rel, dto.categoryId, dto.supCategoryId).Err? ==>
      r == Err(EnsureRelations(rel, dto.categoryId, dto.supCategoryId).error)
    ensures r.Ok? <==>
      id in products && EnsureRelations(rel, dto.categoryId, dto.supCategoryId).Ok? && !dto.name.Null? && !NullsRequired(dto)
    ensures r.Ok? ==> r.value == Edited(products[id], dto)
  {
    if id !in products then Err(NotFound("Not found"))
    else match EnsureRelations(rel, dto.categoryId, dto.supCategoryId)
      case Err(e) => Err(e)
      case Ok(_) =>
        if dto.name.Null? then Err(TypeError)
        else if NullsRequired(dto) then Err(QueryFailedError(NotNullViolation))
        else Ok(Edited(products[id], dto))
  }

  /** The id, the market and the thread are never assigned. */
  lemma UpdateKeepsIdentity(p: Product, dto: UpdateDto)
    ensures var u := Edited(p, dto);
      u.id == p.id && u.marketId == p.marketId && u.commentId == p.commentId
  {
  }

  /** A field the request leaves out keeps its value. */
  lemma UpdateKeepsUndefinedFields(p: Product, dto: UpdateDto)
    ensures var u := Edited(p, dto);
      && (dto.name.Absent? ==> u.name == p.name)
      && (dto.categoryId.Absent? ==> u.categoryId == p.categoryId)
      && (dto.supCategoryId.Absent? ==> u.supCategoryId == p.supCategoryId)
      && (dto.price.Absent? ==> u.price == p.price)
      && (dto.amount.Absent? ==> u.amount == p.amount)
      && (dto.description.Absent? ==> u.description == p.description)
      && (dto.isActive.Absent? ==> u.isActive == p.isActive)
  {
  }

  /** A field the request defines takes the sent value: the name trimmed,
      `null` clearing the nullable columns, and `isActive` included. */
  lemma UpdateSetsDefinedFields(p: Product, dto: UpdateDto)
    ensures var u := Edited(p, dto);
      && (dto.name.Given? ==> u.name == Trim(dto.name.value) && Trim(u.name) == u.name)
      && (dto.categoryId.Given? ==> u.categoryId == dto.categoryId.value)
      && (dto.supCategoryId.Defined() ==> u.supCategoryId == dto.supCategoryId.OrNull())
      && (dto.price.Given? ==> u.price == dto.price.value)
      && (dto.amount.Defined() ==> u.amount == dto.amount.OrNull())
      && (dto.description.Defined() ==> u.description == dto.description.OrNull())
      && (dto.isActive.Given? ==> u.isActive == dto.isActive.value)
  {
    if dto.name.Given? {
      TrimIdempotent(dto.name.value);
    }
  }

  function ProductRow(p: Product): map<string, Json> {
    map[
      "id" := JStr(p.id),
      "name" := JStr(p.name),
      "categoryId" := JStr(p.categoryId),
      "supCategoryId" := OptStr(p.supCategoryId),
      "marketId" := JStr(p.marketId),
      "price" := JStr(p.price),
      "amount" := if p.amount.Some? then JNum(p.amount.value) else JNull,
      "description" := OptStr(p.description),
      "commentId" := OptStr(p.commentId),
      "isActive" := JBool(p.isActive)]
  }

  /** Every product's thread is a PRODUCT comment that points back at it. */
  ghost predicate Linked(products: map<string, Product>, comments: map<string, Comment>) {
    forall id :: id in products && Truthy(products[id].commentId) ==>
      var c := products[id].commentId.value;
      c in comments && comments[c].scope == ProductScope && comments[c].productId == Some(id) && comments[c].Checked()
  }

  /** A create links the new product to its new thread and leaves the other
      links alone. */
  lemma CreateKeepsLinked(products: map<string, Product>, comments: map<string, Comment>, dto: CreateDto, marketId: string, id: string, commentId: string)
    requires Linked(products, comments)
    requires commentId !in comments
    ensures Linked(products[id := NewProduct(dto, marketId, id, commentId)], comments[commentId := NewThread(commentId, id)])
  {
  }

  /** An update never touches `commentId`. */
  lemma UpdateKeepsLinked(products: map<string, Product>, comments: map<string, Comment>, rel: Relations, id: string, dto: UpdateDto)
    requires Linked(products, comments)
    ensures Linked(Stored(products, id, UpdateOutcome(products, rel, id, dto)), comments)
  {
  }

  /** Deleting a product with its thread breaks no other product's link. */
  lemma DeleteKeepsLinked(products: map<string, Product>, comments: map<string, Comment>, id: string)
    requires Linked(products, comments) && id in products
    ensures Linked(products - {id}, WithoutThread(comments, products[id].commentId))
  {
    var rest := products - {id};
    var left := WithoutThread(comments, products[id].commentId);
    forall k | k in rest && Truthy(rest[k].commentId)
      ensures rest[k].commentId.value in left
    {
      var c := rest[k].commentId.value;
      if Truthy(products[id].commentId) {
        var gone := products[id].commentId.value;
        assert c != gone by {
          assert comments[c].productId == Some(k);
          assert comments[gone].productId == Some(id);
        }
      }
    }
  }

  class ProductService {
    /** The `product` table by id. */
    var products: map<string, Product>
    /** The `comment` table by id. */
    var comments: map<string, Comment>
    /** The `photo` table, in the order the rows were saved. */
    var photos: seq<Photo>

    constructor(products: map<string, Product>, comments: map<string, Comment>, photos: seq<Photo>)
      ensures this.products == products && this.comments == comments && this.photos == photos
    {
      this.products := products;
      this.comments := comments;
      this.photos := photos;
    }

    /** `enrichProducts([p])[0]` as a response body (no relation is loaded, so
        no message count is added). */
    method EnrichOne(p: Product, countRows: seq<(string, int)>) returns (body: Json)
      ensures body == Attach(ProductRow(p), Enrichment(PhotosOf(photos, ProductScope, p.id), None))
    {
      var en := EnrichAll([Item(p.id, p.commentId, None)], ProductScope, photos, countRows);
      body := Attach(ProductRow(p), en[0]);
    }

    /** `if (photoPaths?.length) photoRepo.save(…)`: one photo per path, pointing
        at the product `owner`. */
    method SavePhotos(photoPaths: seq<string>, photoIds: seq<string>, owner: string)
      requires |photoIds| == |photoPaths|
      modifies this
      ensures photos == old(photos) + NewPhotos(photoPaths, photoIds, ProductScope, owner)
      ensures products == old(products) && comments == old(comments)
    {
      if |photoPaths| > 0 {
        photos := photos + NewPhotos(photoPaths, photoIds, ProductScope, owner);
      } else {
        assert NewPhotos(photoPaths, photoIds, ProductScope, owner) == [];
        assert photos == photos + [];
      }
    }

    /** `createForMarket(dto, marketId, photoPaths)`, one transaction: the
        relations are checked, the product, its thread and one photo per path
        are saved, and the enriched product is returned with status 201.
        `newId`, `commentId` and `photoIds` are the ids the database generates.
        The enrichment reads the photos through the service's own repository,
        outside the transaction, so under READ COMMITTED it sees the committed
        table, which holds no photo of the new product: the body lists none. */
    method CreateForMarket(
      dto: CreateDto, marketId: string, photoPaths: seq<string>, rel: Relations,
      newId: string, commentId: string, photoIds: seq<string>, countRows: seq<(string, int)>)
      returns (r: Result<Success>)
      requires newId != "" && newId !in products && commentId !in comments && |photoIds| == |photoPaths|
      requires forall p :: p in photos ==> p.productId != Some(newId)
      modifies this
      ensures EnsureRelations(rel, Given(dto.categoryId), dto.supCategoryId).Err? ==>
        && r == Err(EnsureRelations(rel, Given(dto.categoryId), dto.supCategoryId).error)
        && products == old(products) && comments == old(comments) && photos == old(photos)
      ensures EnsureRelations(rel, Given(dto.categoryId), dto.supCategoryId).Ok? ==>
        && products == old(products)[newId := NewProduct(dto, marketId, newId, commentId)]
        && comments == old(comments)[commentId := NewThread(commentId, newId)]
        && photos == old(photos) + NewPhotos(photoPaths, photoIds, ProductScope, newId)
        && r == Ok(SuccessRes(Attach(ProductRow(NewProduct(dto, marketId, newId, commentId)), Enrichment([], None)), 201))
    {
      var checked := EnsureRelations(rel, Given(dto.categoryId), dto.supCategoryId);
      if checked.Err? {
        return Err(checked.error);
      }
      var product := Product(
        newId, Trim(dto.name), dto.categoryId, dto.supCategoryId.OrNull(), marketId,
        dto.price, dto.amount.OrNull(), dto.description.OrNull(), None, true);
      products := products[newId := product];
      comments := comments[commentId := NewThread(commentId, newId)];
      product := product.(commentId := Some(commentId));
      products := products[newId := product];
      assert products == old(products)[newId := NewProduct(dto, marketId, newId, commentId)];
      // The enrichment sees the committed photos only, so it is taken before
      // the transaction's own photos are added.
      var body := EnrichOne(product, countRows);
      assert PhotosOf(photos, ProductScope, newId) == [] by {
        NoneOwnedNoneListed(photos, ProductScope, newId);
      }
      SavePhotos(photoPaths, photoIds, newId);
      return Ok(SuccessRes(body, 201));
    }

    /** `updateWithPhoto(id, dto, photoPaths)`: the assignments of the fields
        the request defines, a save, the new photos, and the enriched row. */
    method UpdateWithPhoto(id: string, dto: UpdateDto, photoPaths: seq<string>, rel: Relations, photoIds: seq<string>, countRows: seq<(string, int)>)
      returns (r: Result<Success>)
      requires |photoIds| == |photoPaths|
      modifies this
      ensures products == Stored(old(products), id, UpdateOutcome(old(products), rel, id, dto))
      ensures comments == old(comments)
      ensures UpdateOutcome(old(products), rel, id, dto).Err? ==>
        r == Err(UpdateOutcome(old(products), rel, id, dto).error) && photos == old(photos)
      ensures UpdateOutcome(old(products), rel, id, dto).Ok? ==>
        var saved := UpdateOutcome(old(products), rel, id, dto).value;
        && photos == old(photos) + NewPhotos(photoPaths, photoIds, ProductScope, saved.id)
        && r == Ok(SuccessRes(Attach(ProductRow(saved), Enrichment(PhotosOf(photos, ProductScope, saved.id), None))))
    {
      ghost var o := UpdateOutcome(products, rel, id, dto);
      if id !in products {
        return Err(NotFound("Not found"));
      }
      var checked := EnsureRelations(rel, dto.categoryId, dto.supCategoryId);
      if checked.Err? {
        assert o == Err(checked.error);
        return Err(checked.error);
      }
      if dto.name.Null? {
        assert o == Err(TypeError);
        return Err(TypeError);
      }
      var product := products[id];
      product := WithName(product, dto.name);
      product := WithCategory(product, dto.categoryId);
      product := WithSupCategory(product, dto.supCategoryId);
      product := WithPrice(product, dto.price);
      product := WithAmount(product, dto.amount);
      product := WithDescription(product, dto.description);
      product := WithActive(product, dto.isActive);
      if NullsRequired(dto) {
        assert o == Err(QueryFailedError(NotNullViolation));
        return Err(QueryFailedError(NotNullViolation));
      }
      assert o == Ok(product);
      products := products[id := product];
      SavePhotos(photoPaths, photoIds, product.id);
      var body := EnrichOne(product, countRows);
      return Ok(SuccessRes(body));
    }

    /** `delete(id)`, one transaction: the product goes, and so does its thread
        when `commentId` is truthy. */
    method Delete(id: string) returns (r: Result<Success>)
      modifies this
      ensures id !in old(products) ==>
        r == Err(NotFound("Not found")) && products == old(products) && comments == old(comments)
      ensures id in old(products) ==>
        && r == Ok(SuccessRes(DeletedBody))
        && products == old(products) - {id}
        && comments == WithoutThread(old(comments), old(products)[id].commentId)
      ensures photos == old(photos)
    {
      if id !in products {
        return Err(NotFound("Not found"));
      }
      var commentId := products[id].commentId;
      products := products - {id};
      if commentId.Some? && commentId.value != "" {
        comments := comments - {commentId.value};
      }
      return Ok(SuccessRes(DeletedBody));
    }
  }
}
