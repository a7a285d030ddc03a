/** `CategoryService`: categories with a unique, trimmed Uzbek name and
    optional uploaded photo and icon; a failed create or update removes the
    files that were uploaded for it. */
module CategoryService {
  import opened Common
  import opened Json
  import opened Strings
  import opened Entities
  import opened SuccessResponse
  import opened UploadCleanup

  const NameRequired: string := "nameUz is required"
  const NameEmpty: string := "nameUz cannot be empty"
  const NameExists: string := "Category nameUz already exists"

  datatype CreateDto = CreateDto(nameUz: Field<string>, nameRu: Field<string>)

  datatype UpdateDto = UpdateDto(nameUz: Field<string>, nameRu: Field<string>)

  /** `ensureUniqueNameUz(nameUz, ignoreId)` fails: a row other than `ignore`
      has the name. */
  predicate NameTaken(rows: map<string, Category>, nameUz: string, ignore: Option<string>) {
    exists k :: k in rows && rows[k].nameUz == nameUz && Some(k) != ignore
  }

  /** The `category` table's constraint on `save`: `nameUz` is UNIQUE. */
  function SaveError(rows: map<string, Category>, c: Category): (e: Option<Exception>)
    ensures e.None? <==> !NameTaken(rows, c.nameUz, Some(c.id))
    ensures e.Some? ==> e.value == QueryFailedError(UniqueViolation)
  {
    if NameTaken(rows, c.nameUz, Some(c.id)) then Some(QueryFailedError(UniqueViolation)) else None
  }

  /** Rows under their own ids, with trimmed, non-empty and unique names. */
  ghost predicate Consistent(rows: map<string, Category>) {
    && (forall k :: k in rows ==> rows[k].id == k && rows[k].nameUz != "" && Trim(rows[k].nameUz) == rows[k].nameUz)
    && (forall a, b :: a in rows && b in rows && a != b ==> rows[a].nameUz != rows[b].nameUz)
  }

  lemma SaveKeepsConsistent(rows: map<string, Category>, c: Category)
    requires Consistent(rows) && SaveError(rows, c).None?
    requires c.nameUz != "" && Trim(c.nameUz) == c.nameUz
    ensures Consistent(rows[c.id := c])
  {
    var r := rows[c.id := c];
    forall a, b | a in r && b in r && a != b
      ensures r[a].nameUz != r[b].nameUz
    {
      if a == c.id {
        assert b in rows && b != c.id;
      } else if b == c.id {
        assert a in rows && a != c.id;
      }
    }
  }

  /** `dto.nameUz?.trim()`, when it is a non-empty string. */
  function CreateName(dto: CreateDto): (n: Option<string>)
    ensures n.Some? <==> dto.nameUz.Given? && Trim(dto.nameUz.value) != ""
    ensures n.Some? ==> n.value == Trim(dto.nameUz.value)
  {
    if dto.nameUz.Given? && Trim(dto.nameUz.value) != "" then Some(Trim(dto.nameUz.value)) else None
  }

  /** What `create` decides: a missing or blank name is refused before
      anything else, then the name must be free (which also rules out the
      UNIQUE violation on save). */
  function CreateOutcome(rows: map<string, Category>, dto: CreateDto, files: Files, newId: string): (r: Result<Category>)
    ensures CreateName(dto).None? ==> r == Err(BadRequest(NameRequired))
    ensures CreateName(dto).Some? && NameTaken(rows, CreateName(dto).value, None) ==> r == Err(Conflict(NameExists))
    ensures r.Ok? ==>
      && CreateName(dto).Some? && !NameTaken(rows, CreateName(dto).value, None)
      && r.value == Category(newId, CreateName(dto).value, dto.nameRu.OrNull(), files.photoPath.OrNull(), files.iconPath.OrNull())
      && SaveError(rows, r.value).None?
  {
    match CreateName(dto)
    case None => Err(BadRequest(NameRequired))
    case Some(nameUz) =>
      if NameTaken(rows, nameUz, None) then Err(Conflict(NameExists))
      else
        Ok(Category(newId, nameUz, dto.nameRu.OrNull(), files.photoPath.OrNull(), files.iconPath.OrNull()))
  }

  /** The category with the DTO and the uploads applied. */
  function Edited(c: Category, dto: UpdateDto, files: Files): Category {
    c.(nameUz := if dto.nameUz.Given? then Trim(dto.nameUz.value) else c.nameUz,
       nameRu := if dto.nameRu.Defined() then dto.nameRu.OrNull() else c.nameRu,
       photoPath := Replaced(c.photoPath, files.photoPath),
       iconPath := Replaced(c.iconPath, files.iconPath))
  }

  /** What `update(id, dto, files)` decides: a `null` name throws on `.trim()`,
      a blank one is refused, and the name must be free of every other row. */
  function UpdateOutcome(rows: map<string, Category>, id: string, dto: UpdateDto, files: Files): (r: Result<Category>)
    ensures id !in rows ==> r == Err(NotFound("Not found"))
    ensures id in rows && dto.nameUz.Null? ==> r == Err(TypeError)
    ensures id in rows && dto.nameUz.Given? && Trim(dto.nameUz.value) == "" ==> r == Err(BadRequest(NameEmpty))
    ensures r == Err(Conflict(NameExists)) <==>
      id in rows && dto.nameUz.Given? && Trim(dto.nameUz.value) != "" && NameTaken(rows, Trim(dto.nameUz.value), Some(id))
    ensures r.Ok? ==> id in rows && r.value == Edited(rows[id], dto, files) && SaveError(rows, r.value).None?
  {
    if id !in rows then Err(NotFound("Not found"))
    else if dto.nameUz.Null? then Err(TypeError)
    else if dto.nameUz.Given? && Trim(dto.nameUz.value) == "" then Err(BadRequest(NameEmpty))
    else if dto.nameUz.Given? && NameTaken(rows, Trim(dto.nameUz.value), Some(id)) then Err(Conflict(NameExists))
    else
      var c := Edited(rows[id], dto, files);
      match SaveError(rows, c)
      case Some(e) => Err(e)
      case None => Ok(c)
  }

  /** Only the fields the DTO defines change, and the files only for
      non-empty uploads. */
  lemma UpdatedFields(rows: map<string, Category>, id: string, dto: UpdateDto, files: Files)
    requires UpdateOutcome(rows, id, dto, files).Ok?
    ensures var c := UpdateOutcome(rows, id, dto, files).value;
      && c.id == rows[id].id
      && (dto.nameUz.Given? ==> c.nameUz == Trim(dto.nameUz.value))
      && (dto.nameUz.Absent? ==> c.nameUz == rows[id].nameUz)
      && (dto.nameRu.Defined() ==> c.nameRu == dto.nameRu.OrNull())
      && (dto.nameRu.Absent? ==> c.nameRu == rows[id].nameRu)
      && (Sent(files.photoPath) ==> c.photoPath == Some(files.photoPath.value))
      && (!Sent(files.photoPath) ==> c.photoPath == rows[id].photoPath)
      && (Sent(files.iconPath) ==> c.iconPath == Some(files.iconPath.value))
      && (!Sent(files.iconPath) ==> c.iconPath == rows[id].iconPath)
  {
  }

  /** A category may keep its own name. */
  lemma OwnNameDoesNotConflict(rows: map<string, Category>, id: string, dto: UpdateDto, files: Files)
    requires Consistent(rows) && id in rows
    requires dto.nameUz.Given? && Trim(dto.nameUz.value) == rows[id].nameUz
    ensures UpdateOutcome(rows, id, dto, files) != Err(Conflict(NameExists))
  {
  }

  /** Create and update keep the names trimmed, non-empty and unique. */
  lemma CreateKeepsConsistent(rows: map<string, Category>, dto: CreateDto, files: Files, newId: string)
    requires Consistent(rows)
    ensures Consistent(Stored(rows, newId, CreateOutcome(rows, dto, files, newId)))
  {
    var o := CreateOutcome(rows, dto, files, newId);
    if o.Ok? {
      TrimIdempotent(dto.nameUz.value);
      SaveKeepsConsistent(rows, o.value);
    }
  }

  lemma UpdateKeepsConsistent(rows: map<string, Category>, id: string, dto: UpdateDto, files: Files)
    requires Consistent(rows)
    ensures Consistent(Stored(rows, id, UpdateOutcome(rows, id, dto, files)))
  {
    var o := UpdateOutcome(rows, id, dto, files);
    if o.Ok? {
      if dto.nameUz.Given? {
        TrimIdempotent(dto.nameUz.value);
      }
      assert o.value.id == id;
      SaveKeepsConsistent(rows, o.value);
    }
  }

  /** The row as it is returned. */
  function View(c: Category): (j: Json)
    ensures j.Get("id") == JStr(c.id) && j.Get("nameUz") == JStr(c.nameUz)
  {
    JObj(map[
      "id" := JStr(c.id),
      "nameUz" := JStr(c.nameUz),
      "nameRu" := OptStr(c.nameRu),
      "photoPath" := OptStr(c.photoPath),
      "iconPath" := OptStr(c.iconPath)])
  }

  function Reply(o: Result<Category>, status: int): (r: Result<Success>)
    ensures r.Ok? <==> o.Ok?
    ensures o.Err? ==> r == Err(o.error)
    ensures o.Ok? ==> r.value.data == View(o.value) && r.value.statusCode == status
  {
    match o
    case Ok(c) => Ok(SuccessRes(View(c), status))
    case Err(e) => Err(e)
  }

  class CategoryService {
    const disk: Disk
    /** The `category` table by id. */
    var categories: map<string, Category>

    constructor(disk: Disk, categories: map<string, Category>)
      ensures this.disk == disk && this.categories == categories
    {
      this.disk := disk;
      this.categories := categories;
    }

    /** `create(dto, files)`: a failure past the name check removes the
        uploaded files and is rethrown unchanged. */
    method Create(dto: CreateDto, files: Files, newId: string) returns (r: Result<Success>)
      requires newId !in categories
      modifies this, disk
      ensures r == Reply(CreateOutcome(old(categories), dto, files, newId), 201)
      ensures categories == Stored(old(categories), newId, CreateOutcome(old(categories), dto, files, newId))
      ensures disk.files == if r.Err? && CreateName(dto).Some? then old(disk.files) - Doomed(disk.cwd, Paths(files)) else old(disk.files)
    {
      if !dto.nameUz.Given? || Trim(dto.nameUz.value) == "" {
        return Err(BadRequest(NameRequired));
      }
      var nameUz := Trim(dto.nameUz.value);
      if NameTaken(categories, nameUz, None) {
        disk.Cleanup(Paths(files));
        return Err(Conflict(NameExists));
      }
      var category := Category(newId, nameUz, dto.nameRu.OrNull(), files.photoPath.OrNull(), files.iconPath.OrNull());
      categories := categories[newId := category];
      return Ok(SuccessRes(View(category), 201));
    }

    /** `update(id, dto, files)`: a failure past the lookup removes the
        uploaded files and is rethrown unchanged. */
    method Update(id: string, dto: UpdateDto, files: Files) returns (r: Result<Success>)
      modifies this, disk
      ensures r == Reply(UpdateOutcome(old(categories), id, dto, files), 200)
      ensures categories == Stored(old(categories), id, UpdateOutcome(old(categories), id, dto, files))
      ensures disk.files == if r.Err? && id in old(categories) then old(disk.files) - Doomed(disk.cwd, Paths(files)) else old(disk.files)
    {
      if id !in categories {
        return Err(NotFound("Not found"));
      }
      ghost var o := UpdateOutcome(categories, id, dto, files);
      var category := categories[id];
      if dto.nameUz.Defined() {
        if dto.nameUz.Null? {
          disk.Cleanup(Paths(files));
          return Err(TypeError);
        }
        var nameUz := Trim(dto.nameUz.value);
        if nameUz == "" {
          disk.Cleanup(Paths(files));
          return Err(BadRequest(NameEmpty));
        }
        if NameTaken(categories, nameUz, Some(id)) {
          assert o == Err(Conflict(NameExists));
          disk.Cleanup(Paths(files));
          return Err(Conflict(NameExists));
        }
        category := category.(nameUz := nameUz);
      }
      if dto.nameRu.Defined() {
        category := category.(nameRu := dto.nameRu.OrNull());
      }
      category := category.(photoPath := Replaced(category.photoPath, files.photoPath),
                            iconPath := Replaced(category.iconPath, files.iconPath));
      UpdateReachesSave(categories, id, dto, files, category);
      var failure := SaveError(categories, category);
      if failure.Some? {
        disk.Cleanup(Paths(files));
        return Err(failure.value);
      }
      categories := categories[id := category];
      return Ok(SuccessRes(View(category)));
    }

    /** `remove(id)`. `referenced` holds the ids of the categories that a
        product, elon, sup-category or group row still points at: those foreign
        keys are `onDelete: 'RESTRICT'`, so the delete of such a category fails. */
    method Remove(id: string, referenced: set<string>) returns (r: Result<Success>)
      modifies this
      ensures id !in old(categories) ==> r == Err(NotFound("Not found")) && categories == old(categories)
      ensures id in old(categories) && id in referenced ==>
        r == Err(QueryFailedError(ForeignKeyViolation)) && categories == old(categories)
      ensures id in old(categories) && id !in referenced ==>
        r == Ok(SuccessRes(DeletedBody)) && categories == old(categories) - {id}
    {
      if id !in categories {
        return Err(NotFound("Not found"));
      }
      if id in referenced {
        return Err(QueryFailedError(ForeignKeyViolation));
      }
      categories := categories - {id};
      return Ok(SuccessRes(DeletedBody));
    }
  }

  /** Past the name rules, `update` ends with the save of the edited row. */
  lemma UpdateReachesSave(rows: map<string, Category>, id: string, dto: UpdateDto, files: Files, c: Category)
    requires id in rows && !dto.nameUz.Null?
    requires dto.nameUz.Given? ==> Trim(dto.nameUz.value) != "" && !NameTaken(rows, Trim(dto.nameUz.value), Some(id))
    requires c == Edited(rows[id], dto, files)
    ensures UpdateOutcome(rows, id, dto, files) == (if SaveError(rows, c).Some? then Err(SaveError(rows, c).value) else Ok(c))
  {
  }
}
