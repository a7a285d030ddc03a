/** `ElonService`: the announcements ("elons") clients post. An elon is created
    together with its discussion thread (a comment of scope ELON) and its
    photos; updates change only the fields the request names; every answer
    raises its answer count by one. */
module ElonService {
  import opened Common
  import opened Json
  import opened Strings
  import opened Entities
  import opened SuccessResponse
  import opened Enrich

  const CategoryMissing: string := "category not found"
  const SupCategoryMissing: string := "supcategory not found"
  const GroupMissing: string := "group not found"
  /** The message of `incrementAnswerCount`; every other lookup says "Not found". */
  const AnswerTargetMissing: string := "Elon Not found"

  /** The ids the relation checks can find: the rows of the `category`,
      `sup_category` and `group` tables. */
  datatype Relations = Relations(categories: set<string>, supCategories: set<string>, groups: set<string>)

  /** A truthy id must name an existing row; a falsy one is not looked up. */
  predicate Resolves(ids: set<string>, f: Field<string>) {
    Sent(f) ==> f.value in ids
  }

  /** `ensureRelationsExist`: the category, then the sup-category, then the
      group; the first one missing is named in the NotFound. */
  function EnsureRelations(rel: Relations, categoryId: Field<string>, supCategoryId: Field<string>, groupId: Field<string>)
    : (r: Result<Unit>)
    ensures r.Ok? <==>
      Resolves(rel.categories, categoryId) && Resolves(rel.supCategories, supCategoryId) && Resolves(rel.groups, groupId)
    ensures !Resolves(rel.categories, categoryId) ==> r == Err(NotFound(CategoryMissing))
    ensures Resolves(rel.categories, categoryId) && !Resolves(rel.supCategories, supCategoryId) ==>
      r == Err(NotFound(SupCategoryMissing))
    ensures Resolves(rel.categories, categoryId) && Resolves(rel.supCategories, supCategoryId) && !Resolves(rel.groups, groupId) ==>
      r == Err(NotFound(GroupMissing))
  {
    if !Resolves(rel.categories, categoryId) then Err(NotFound(CategoryMissing))
    else if !Resolves(rel.supCategories, supCategoryId) then Err(NotFound(SupCategoryMissing))
    else if !Resolves(rel.groups, groupId) then Err(NotFound(GroupMissing))
    else Ok(Unit)
  }

  /** The body of `POST /elon` as the service reads it. */
  datatype CreateDto = CreateDto(
    text: string,
    adressname: Field<string>,
    categoryId: string,
    supCategoryId: Field<string>,
    price: Field<string>,
    groupId: Field<string>)

  /** `dto.adressname?.trim() ?? null` */
  function TrimmedOrNull(f: Field<string>): (r: Option<string>)
    ensures r.Some? <==> f.Given?
    ensures r.Some? ==> Trimmed(r.value)
  {
    if f.Given? then Some(Trim(f.value)) else None
  }

  /** The row `createForClient` leaves in the table: the created elon, with its
      thread linked. */
  function NewElon(dto: CreateDto, clientId: string, id: string, commentId: string): Elon {
    Elon(
      id,
      Trim(dto.text),
      TrimmedOrNull(dto.adressname),
      dto.categoryId,
      if Sent(dto.supCategoryId) then Some(dto.supCategoryId.value) else None,
      clientId,
      dto.price.OrNull(),
      dto.groupId.OrNull(),
      Some(commentId),
      Negotiation,
      0)
  }

  /** The thread created with the elon. */
  function NewThread(commentId: string, elonId: string): Comment {
    Comment(commentId, ElonScope, Some(elonId), None)
  }

  /** A created elon has trimmed text and a trimmed-or-null address name; the
      price, the group and the sup-category are null unless sent; the client is
      the caller; it starts in negotiation with no answers, linked to its thread,
      and the thread passes the comment table's check. */
  lemma CreatedElonShape(dto: CreateDto, clientId: string, id: string, commentId: string)
    ensures var e := NewElon(dto, clientId, id, commentId);
      && Trimmed(e.text) && Trim(e.text) == e.text
      && (e.adressname.Some? <==> dto.adressname.Given?)
      && (e.adressname.Some? ==> Trim(e.adressname.value) == e.adressname.value)
      && (e.price.Some? <==> dto.price.Given?)
      && (e.groupId.Some? <==> dto.groupId.Given?)
      && (e.supCategoryId.Some? <==> Sent(dto.supCategoryId))
      && e.clientId == clientId && e.categoryId == dto.categoryId
      && e.status == Negotiation && e.answerCount == 0
      && e.commentId == Some(commentId)
    ensures NewThread(commentId, id).Checked() && NewThread(commentId, id).elonId == Some(id)
  {
    TrimIdempotent(dto.text);
    if dto.adressname.Given? {
      TrimIdempotent(dto.adressname.value);
    }
  }

  /** The body of `PATCH /elon/:id` as the service reads it (`clientId` and
      `photoId` are accepted but never assigned). */
  datatype UpdateDto = UpdateDto(
    text: Field<string>,
    adressname: Field<string>,
    categoryId: Field<string>,
    supCategoryId: Field<string>,
    price: Field<string>,
    groupId: Field<string>,
    status: Field<ElonStatus>)

  /** The field assignments of `updateWithPhoto`, one per field: a field the
      request defines is replaced (text trimmed, address name trimmed or null),
      any other is kept. A `null` text never gets here (its `trim()` throws), and
      a `null` category or status is refused by the save. */
  function WithText(e: Elon, f: Field<string>): (r: Elon)
    ensures r == e.(text := r.text)
    ensures !f.Given? ==> r == e
  {
    if f.Given? then e.(text := Trim(f.value)) else e
  }

  function WithAdressname(e: Elon, f: Field<string>): (r: Elon)
    ensures r == e.(adressname := r.adressname)
    ensures f.Absent? ==> r == e
  {
    if f.Defined() then e.(adressname := TrimmedOrNull(f)) else e
  }

  function WithCategory(e: Elon, f: Field<string>): (r: Elon)
    ensures r == e.(categoryId := r.categoryId)
    ensures !f.Given? ==> r == e
  {
    if f.Given? then e.(categoryId := f.value) else e
  }

  function WithSupCategory(e: Elon, f: Field<string>): (r: Elon)
    ensures r == e.(supCategoryId := r.supCategoryId)
    ensures f.Absent? ==> r == e
  {
    if f.Defined() then e.(supCategoryId := f.OrNull()) else e
  }

  function WithPrice(e: Elon, f: Field<string>): (r: Elon)
    ensures r == e.(price := r.price)
    ensures f.Absent? ==> r == e
  {
    if f.Defined() then e.(price := f.OrNull()) else e
  }

  function WithGroup(e: Elon, f: Field<string>): (r: Elon)
    ensures r == e.(groupId := r.groupId)
    ensures f.Absent? ==> r == e
  {
    if f.Defined() then e.(groupId := f.OrNull()) else e
  }

  function WithStatus(e: Elon, f: Field<ElonStatus>): (r: Elon)
    ensures r == e.(status := r.status)
    ensures !f.Given? ==> r == e
  {
    if f.Given? then e.(status := f.value) else e
  }

  /** The row after all the assignments, in the order the service makes them. */
  function Edited(e: Elon, dto: UpdateDto): Elon {
    var e1 := WithAdressname(WithText(e, dto.text), dto.adressname);
    var e2 := WithSupCategory(WithCategory(e1, dto.categoryId), dto.supCategoryId);
    WithStatus(WithGroup(WithPrice(e2, dto.price), dto.groupId), dto.status)
  }

  /** The outcome of `updateWithPhoto` for the stored row: NotFound, a missing
      relation, a `TypeError` for a `null` text (`null.trim()`), a NOT NULL
      violation on save for a `null` category or status, or the edited row. */
  function UpdateOutcome(elons: map<string, Elon>, rel: Relations, id: string, dto: UpdateDto): (r: Result<Elon>)
    ensures id !in elons ==> r == Err(NotFound("Not found"))
    ensures id in elons && EnsureRelations(rel, dto.categoryId, dto.supCategoryId, dto.groupId).Err? ==>
      r == Err(EnsureRelations(rel, dto.categoryId, dto.supCategoryId, dto.groupId).error)
    ensures r.Ok? <==>
      id in elons && EnsureRelations(rel, dto.categoryId, dto.supCategoryId, dto.groupId).Ok?
      && !dto.text.Null? && !dto.categoryId.Null? && !dto.status.Null?
    ensures r.Ok? ==> r.value == Edited(elons[id], dto)
  {
    if id !in elons then Err(NotFound("Not found"))
    else match EnsureRelations(rel, dto.categoryId, dto.supCategoryId, dto.groupId)
      case Err(e) => Err(e)
      case Ok(_) =>
        if dto.text.Null? then Err(TypeError)
        else if dto.categoryId.Null? || dto.status.Null? then Err(QueryFailedError(NotNullViolation))
        else Ok(Edited(elons[id], dto))
  }

  /** The id, the client, the thread and the answer count are never assigned. */
  lemma UpdateKeepsIdentity(e: Elon, dto: UpdateDto)
    ensures var u := Edited(e, dto);
      u.id == e.id && u.clientId == e.clientId && u.commentId == e.commentId && u.answerCount == e.answerCount
  {
  }

  /** A field the request leaves out keeps its value. */
  lemma UpdateKeepsUndefinedFields(e: Elon, dto: UpdateDto)
    ensures var u := Edited(e, dto);
      && (dto.text.Absent? ==> u.text == e.text)
      && (dto.adressname.Absent? ==> u.adressname == e.adressname)
      && (dto.categoryId.Absent? ==> u.categoryId == e.categoryId)
      && (dto.supCategoryId.Absent? ==> u.supCategoryId == e.supCategoryId)
      && (dto.price.Absent? ==> u.price == e.price)
      && (dto.groupId.Absent? ==> u.groupId == e.groupId)
      && (dto.status.Absent? ==> u.status == e.status)
  {
  }

  /** A field the request defines takes the sent value: the text and the
      address name trimmed, `null` clearing the nullable columns. */
  lemma UpdateSetsDefinedFields(e: Elon, dto: UpdateDto)
    ensures var u := Edited(e, dto);
      && (dto.text.Given? ==> u.text == Trim(dto.text.value) && Trim(u.text) == u.text)
      && (dto.adressname.Defined() ==> u.adressname == TrimmedOrNull(dto.adressname))
      && (dto.categoryId.Given? ==> u.categoryId == dto.categoryId.value)
      && (dto.supCategoryId.Defined() ==> u.supCategoryId == dto.supCategoryId.OrNull())
      && (dto.price.Defined() ==> u.price == dto.price.OrNull())
      && (dto.groupId.Defined() ==> u.groupId == dto.groupId.OrNull())
      && (dto.status.Given? ==> u.status == dto.status.value)
  {
    if dto.text.Given? {
      TrimIdempotent(dto.text.value);
    }
  }

  /** An empty request saves the row unchanged. */
  lemma EmptyUpdateChangesNothing(e: Elon)
    ensures Edited(e, UpdateDto(Absent, Absent, Absent, Absent, Absent, Absent, Absent)) == e
  {
  }

  function ElonRow(e: Elon): map<string, Json> {
    map[
      "id" := JStr(e.id),
      "text" := JStr(e.text),
      "adressname" := OptStr(e.adressname),
      "categoryId" := JStr(e.categoryId),
      "supCategoryId" := OptStr(e.supCategoryId),
      "clientId" := JStr(e.clientId),
      "price" := OptStr(e.price),
      "groupId" := OptStr(e.groupId),
      "commentId" := OptStr(e.commentId),
      "status" := JStr(e.status.Name()),
      "answerCount" := JNum(e.answerCount)]
  }

  /** Every elon's thread is an ELON comment that points back at it. */
  ghost predicate Linked(elons: map<string, Elon>, comments: map<string, Comment>) {
    forall id :: id in elons && Truthy(elons[id].commentId) ==>
      var c := elons[id].commentId.value;
      c in comments && comments[c].scope == ElonScope && comments[c].elonId == Some(id) && comments[c].Checked()
  }

  /** A create links the new elon to its new thread and leaves the other links
      alone. */
  lemma CreateKeepsLinked(elons: map<string, Elon>, comments: map<string, Comment>, dto: CreateDto, clientId: string, id: string, commentId: string)
    requires Linked(elons, comments)
    requires commentId !in comments
    ensures Linked(elons[id := NewElon(dto, clientId, id, commentId)], comments[commentId := NewThread(commentId, id)])
  {
  }

  /** An update never touches `commentId`. */
  lemma UpdateKeepsLinked(elons: map<string, Elon>, comments: map<string, Comment>, rel: Relations, id: string, dto: UpdateDto)
    requires Linked(elons, comments)
    ensures Linked(Stored(elons, id, UpdateOutcome(elons, rel, id, dto)), comments)
  {
  }

  /** Deleting an elon with its thread breaks no other elon's link: a thread
      points back at one elon only. */
  lemma DeleteKeepsLinked(elons: map<string, Elon>, comments: map<string, Comment>, id: string)
    requires Linked(elons, comments) && id in elons
    ensures Linked(elons - {id}, WithoutThread(comments, elons[id].commentId))
  {
    var rest := elons - {id};
    var left := WithoutThread(comments, elons[id].commentId);
    forall k | k in rest && Truthy(rest[k].commentId)
      ensures rest[k].commentId.value in left
    {
      var c := rest[k].commentId.value;
      if Truthy(elons[id].commentId) {
        var gone := elons[id].commentId.value;
        assert c != gone by {
          assert comments[c].elonId == Some(k);
          assert comments[gone].elonId == Some(id);
        }
      }
    }
  }

  class ElonService {
    /** The `elon` table by id. */
    var elons: map<string, Elon>
    /** The `comment` table by id. */
    var comments: map<string, Comment>
    /** The `photo` table, in the order the rows were saved. */
    var photos: seq<Photo>

    constructor(elons: map<string, Elon>, comments: map<string, Comment>, photos: seq<Photo>)
      ensures this.elons == elons && this.comments == comments && this.photos == photos
    {
      this.elons := elons;
      this.comments := comments;
      this.photos := photos;
    }

    /** `enrichElons([e])[0]` as a response body (no relation is loaded, so no
        message count is added). */
    method EnrichOne(e: Elon, countRows: seq<(string, int)>) returns (body: Json)
      ensures body == Attach(ElonRow(e), Enrichment(PhotosOf(photos, ElonScope, e.id), None))
    {
      var en := EnrichAll([Item(e.id, e.commentId, None)], ElonScope, photos, countRows);
      body := Attach(ElonRow(e), en[0]);
    }

    /** `if (photoPaths?.length) photoRepo.save(…)`: one photo per path, pointing
        at the elon `owner`. */
    method SavePhotos(photoPaths: seq<string>, photoIds: seq<string>, owner: string)
      requires |photoIds| == |photoPaths|
      modifies this
      ensures photos == old(photos) + NewPhotos(photoPaths, photoIds, ElonScope, owner)
      ensures elons == old(elons) && comments == old(comments)
    {
      if |photoPaths| > 0 {
        photos := photos + NewPhotos(photoPaths, photoIds, ElonScope, owner);
      } else {
        assert NewPhotos(photoPaths, photoIds, ElonScope, owner) == [];
        assert photos == photos + [];
      }
    }

    /** `createForClient(dto, clientId, photoPaths)`, one transaction: the
        relations are checked, the elon, its thread and one photo per path are
        saved, and the enriched elon is returned with status 201. `newId`,
        `commentId` and `photoIds` are the ids the database generates. The
        enrichment reads the photos through the service's own repository, outside
        the transaction, so under READ COMMITTED it sees the committed table,
        which holds no photo of the new elon: the body lists none. */
    method CreateForClient(
      dto: CreateDto, clientId: string, photoPaths: seq<string>, rel: Relations,
      newId: string, commentId: string, photoIds: seq<string>, countRows: seq<(string, int)>)
      returns (r: Result<Success>)
      requires newId != "" && newId !in elons && commentId !in comments && |photoIds| == |photoPaths|
      requires forall p :: p in photos ==> p.elonId != Some(newId)
      modifies this
      ensures EnsureRelations(rel, Given(dto.categoryId), dto.supCategoryId, dto.groupId).Err? ==>
        && r == Err(EnsureRelations(rel, Given(dto.categoryId), dto.supCategoryId, dto.groupId).error)
        && elons == old(elons) && comments == old(comments) && photos == old(photos)
      ensures EnsureRelations(rel, Given(dto.categoryId), dto.supCategoryId, dto.groupId).Ok? ==>
        && elons == old(elons)[newId := NewElon(dto, clientId, newId, commentId)]
        && comments == old(comments)[commentId := NewThread(commentId, newId)]
        && photos == old(photos) + NewPhotos(photoPaths, photoIds, ElonScope, newId)
        && r == Ok(SuccessRes(Attach(ElonRow(NewElon(dto, clientId, newId, commentId)), Enrichment([], None)), 201))
    {
      var checked := EnsureRelations(rel, Given(dto.categoryId), dto.supCategoryId, dto.groupId);
      if checked.Err? {
        return Err(checked.error);
      }
      var elon := Elon(
        newId, Trim(dto.text), TrimmedOrNull(dto.adressname), dto.categoryId,
        if Sent(dto.supCategoryId) then Some(dto.supCategoryId.value) else None,
        clientId, dto.price.OrNull(), dto.groupId.OrNull(), None, Negotiation, 0);
      elons := elons[newId := elon];
      comments := comments[commentId := NewThread(commentId, newId)];
      elon := elon.(commentId := Some(commentId));
      elons := elons[newId := elon];
      assert elons == old(elons)[newId := NewElon(dto, clientId, newId, commentId)];
      // The enrichment sees the committed photos only, so it is taken before
      // the transaction's own photos are added.
      var body := EnrichOne(elon, countRows);
      assert PhotosOf(photos, ElonScope, newId) == [] by {
        NoneOwnedNoneListed(photos, ElonScope, newId);
      }
      SavePhotos(photoPaths, photoIds, newId);
      return Ok(SuccessRes(body, 201));
    }

    /** `updateWithPhoto(id, dto, photoPaths)`: the assignments of the fields the
        request defines, a save, the new photos, and the enriched row. */
    method UpdateWithPhoto(id: string, dto: UpdateDto, photoPaths: seq<string>, rel: Relations, photoIds: seq<string>, countRows: seq<(string, int)>)
      returns (r: Result<Success>)
      requires |photoIds| == |photoPaths|
      modifies this
      ensures elons == Stored(old(elons), id, UpdateOutcome(old(elons), rel, id, dto))
      ensures comments == old(comments)
      ensures UpdateOutcome(old(elons), rel, id, dto).Err? ==>
        r == Err(UpdateOutcome(old(elons), rel, id, dto).error) && photos == old(photos)
      ensures UpdateOutcome(old(elons), rel, id, dto).Ok? ==>
        var saved := UpdateOutcome(old(elons), rel, id, dto).value;
        && photos == old(photos) + NewPhotos(photoPaths, photoIds, ElonScope, saved.id)
        && r == Ok(SuccessRes(Attach(ElonRow(saved), Enrichment(PhotosOf(photos, ElonScope, saved.id), None))))
    {
      ghost var o := UpdateOutcome(elons, rel, id, dto);
      if id !in elons {
        return Err(NotFound("Not found"));
      }
      var checked := EnsureRelations(rel, dto.categoryId, dto.supCategoryId, dto.groupId);
      if checked.Err? {
        assert o == Err(checked.error);
        return Err(checked.error);
      }
      if dto.text.Null? {
        assert o == Err(TypeError);
        return Err(TypeError);
      }
      var elon := elons[id];
      elon := WithText(elon, dto.text);
      elon := WithAdressname(elon, dto.adressname);
      elon := WithCategory(elon, dto.categoryId);
      elon := WithSupCategory(elon, dto.supCategoryId);
      elon := WithPrice(elon, dto.price);
      elon := WithGroup(elon, dto.groupId);
      elon := WithStatus(elon, dto.status);
      if dto.categoryId.Null? || dto.status.Null? {
        assert o == Err(QueryFailedError(NotNullViolation));
        return Err(QueryFailedError(NotNullViolation));
      }
      assert o == Ok(elon);
      elons := elons[id := elon];
      SavePhotos(photoPaths, photoIds, elon.id);
      var body := EnrichOne(elon, countRows);
      return Ok(SuccessRes(body));
    }

    /** `delete(id)`, one transaction: the elon goes, and so does its thread when
        `commentId` is truthy. */
    method Delete(id: string) returns (r: Result<Success>)
      modifies this
      ensures id !in old(elons) ==>
        r == Err(NotFound("Not found")) && elons == old(elons) && comments == old(comments)
      ensures id in old(elons) ==>
        && r == Ok(SuccessRes(DeletedBody))
        && elons == old(elons) - {id}
        && comments == WithoutThread(old(comments), old(elons)[id].commentId)
      ensures photos == old(photos)
    {
      if id !in elons {
        return Err(NotFound("Not found"));
      }
      var commentId := elons[id].commentId;
      elons := elons - {id};
      if commentId.Some? && commentId.value != "" {
        comments := comments - {commentId.value};
      }
      return Ok(SuccessRes(DeletedBody));
    }

    /** `incrementAnswerCount(id)`: one more answer, nothing else changes; the
        saved row is returned without enrichment. */
    method IncrementAnswerCount(id: string) returns (r: Result<Success>)
      modifies this
      ensures id !in old(elons) ==> r == Err(NotFound(AnswerTargetMissing)) && elons == old(elons)
      ensures id in old(elons) ==>
        && elons == old(elons)[id := old(elons)[id].(answerCount := old(elons)[id].answerCount + 1)]
        && r == Ok(SuccessRes(JObj(ElonRow(elons[id]))))
      ensures comments == old(comments) && photos == old(photos)
    {
      if id !in elons {
        return Err(NotFound(AnswerTargetMissing));
      }
      var elon := elons[id];
      elon := elon.(answerCount := elon.answerCount + 1);
      elons := elons[id := elon];
      return Ok(SuccessRes(JObj(ElonRow(elon))));
    }

    /** `updateStatus(id, status)`: only the status changes; the enriched row is
        returned. */
    method UpdateStatus(id: string, status: ElonStatus, countRows: seq<(string, int)>) returns (r: Result<Success>)
      modifies this
      ensures id !in old(elons) ==> r == Err(NotFound("Not found")) && elons == old(elons)
      ensures id in old(elons) ==>
        && elons == old(elons)[id := old(elons)[id].(status := status)]
        && r == Ok(SuccessRes(Attach(ElonRow(elons[id]), Enrichment(PhotosOf(photos, ElonScope, elons[id].id), None))))
      ensures comments == old(comments) && photos == old(photos)
    {
      if id !in elons {
        return Err(NotFound("Not found"));
      }
      var elon := elons[id].(status := status);
      elons := elons[id := elon];
      var body := EnrichOne(elon, countRows);
      return Ok(SuccessRes(body));
    }
  }
}
